/**
 * The records that the orchestrator and its activities pass around
 * (CombineOrderRequest, CombineOrderContent, CombinedOrdersTable).
 */
module CombineOrderRecords {
  import opened Wrappers

  /** The JSON body posted to the merge endpoint: the three CSV URLs. */
  datatype CombineOrderContent = CombineOrderContent(
    orderHeaderDetailsCSVUrl: string,
    orderLineItemsCSVUrl: string,
    productInformationCSVUrl: string)

  /** JSON text produced by serialising a CombineOrderContent. Serialisation
      is injective, so the text is represented by the object it encodes. */
  datatype JsonText = JsonOf(payload: CombineOrderContent)

  /** What the entity hands the orchestrator once an order is complete, and
      what the orchestrator hands its two activities. `content` is null until
      the merge call has succeeded. */
  datatype CombineOrderRequest = CombineOrderRequest(
    entityKey: string,
    headerURL: string,
    lineItemsURL: string,
    productionInformationURL: string,
    content: Option<JsonText>)

  /** One row of the `combinedorders` table. */
  datatype CombinedOrdersTable = CombinedOrdersTable(
    PartitionKey: string,
    RowKey: string,
    Text: Option<JsonText>)
}
