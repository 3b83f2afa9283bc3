/**
 * The blob-URL parser of OrderBlobAttributes. One anchored, case-insensitive
 * regular expression,
 *
 *     ^\S*\/([^/]+)\/(([\d^-]+)-([\w]+))\.csv$
 *
 * splits the URL of an uploaded CSV file into its container (group 1), its
 * file name without extension (group 2), the batch prefix that identifies the
 * order (group 3) and the file-type tag (group 4); group 0 is the whole match.
 * A URL the expression does not match gives null (here None), never an error.
 *
 * Parse is written as a string function (last `/`-segment, the segment before
 * it, the stem split at its last `-`, the extension stripped) and the lemmas
 * below prove it equal to the language of the regular expression itself.
 */
module BlobUrl {
  import opened Wrappers

  /** The five read-only properties of the C# record. */
  datatype OrderBlobAttributes = OrderBlobAttributes(
    FullUrl: string,
    ContainerName: string,
    Filename: string,
    BatchPrefix: string,
    Filetype: string)

  // ---------------------------------------------------------------------
  // Character classes of the expression
  // ---------------------------------------------------------------------

  /** `\s` of .NET: the ASCII white-space controls, U+0085, and the Unicode
      separator categories Zs, Zl and Zp. `\S` is its complement. */
  predicate IsWhitespace(c: char)
  {
    c == ' ' || c == '\t' || c == '\n' || c == '\U{000B}' || c == '\U{000C}' || c == '\r'
    || c == '\U{0085}' || c == '\U{00A0}' || c == '\U{1680}'
    || ('\U{2000}' <= c <= '\U{200A}')
    || c == '\U{2028}' || c == '\U{2029}' || c == '\U{202F}' || c == '\U{205F}' || c == '\U{3000}'
  }

  /** `\d`, restricted to ASCII digits. */
  predicate IsDigit(c: char) { '0' <= c <= '9' }

  /** `[\d^-]`: a digit, a caret or a hyphen. */
  predicate IsPrefixChar(c: char) { IsDigit(c) || c == '^' || c == '-' }

  /** `\w`, restricted to ASCII letters, digits and underscore. */
  predicate IsWordChar(c: char) { 'a' <= c <= 'z' || 'A' <= c <= 'Z' || IsDigit(c) || c == '_' }

  /** `\S*` */
  predicate NoWhitespace(s: string) { forall i :: 0 <= i < |s| ==> !IsWhitespace(s[i]) }

  /** `[^/]+` (group 1) */
  predicate IsContainerName(s: string) { |s| > 0 && '/' !in s }

  /** `[\d^-]+` (group 3) */
  predicate IsBatchPrefix(s: string) { |s| > 0 && forall i :: 0 <= i < |s| ==> IsPrefixChar(s[i]) }

  /** `[\w]+` (group 4) */
  predicate IsFiletypeTag(s: string) { |s| > 0 && forall i :: 0 <= i < |s| ==> IsWordChar(s[i]) }

  /** `\.csv` under RegexOptions.IgnoreCase. */
  predicate IsCsvExtension(s: string)
  {
    |s| == 4 && s[0] == '.'
    && (s[1] == 'c' || s[1] == 'C') && (s[2] == 's' || s[2] == 'S') && (s[3] == 'v' || s[3] == 'V')
  }

  // ---------------------------------------------------------------------
  // The language of the expression
  // ---------------------------------------------------------------------

  /** `line` reads `head/container/prefix-tag.csv` with every part in its
      character class: one way for the expression to match all of `line`. */
  ghost predicate Decomposes(line: string, head: string, container: string, prefix: string, tag: string, ext: string)
  {
    && line == head + "/" + container + "/" + prefix + "-" + tag + ext
    && NoWhitespace(head)
    && IsContainerName(container)
    && IsBatchPrefix(prefix)
    && IsFiletypeTag(tag)
    && IsCsvExtension(ext)
  }

  /** Regex.Match(input) succeeds with the groups recorded in `a`. `^` anchors
      at the start of the input; .NET's `$` anchors at its end or just before a
      final '\n', in which case group 0 leaves that '\n' out. */
  ghost predicate RegexMatches(input: string, a: OrderBlobAttributes)
  {
    && (input == a.FullUrl || input == a.FullUrl + "\n")
    && a.Filename == a.BatchPrefix + "-" + a.Filetype
    && exists head, ext :: Decomposes(a.FullUrl, head, a.ContainerName, a.BatchPrefix, a.Filetype, ext)
  }

  // ---------------------------------------------------------------------
  // Parse
  // ---------------------------------------------------------------------

  /** The position of the last `c` in `s`, or -1 when there is none. */
  function LastIndexOf(s: string, c: char): (r: int)
    ensures -1 <= r < |s|
    ensures r >= 0 ==> s[r] == c
    ensures forall k :: r < k < |s| ==> s[k] != c
  {
    if |s| == 0 then -1
    else if s[|s| - 1] == c then |s| - 1
    else LastIndexOf(s[..|s| - 1], c)
  }

  /** `s` cut at its last `c` into the text before and the text after it. */
  function SplitLast(s: string, c: char): (r: Option<(string, string)>)
    ensures r.Some? ==> s == r.value.0 + [c] + r.value.1 && c !in r.value.1
    ensures r.None? ==> c !in s
  {
    var i := LastIndexOf(s, c);
    if i < 0 then None
    else
      assert s == s[..i] + [c] + s[i + 1..];
      Some((s[..i], s[i + 1..]))
  }

  /** The text `$` lets the expression match: the input without a final '\n'. */
  function MatchedText(input: string): (line: string)
    ensures input == line || input == line + "\n"
  {
    if |input| > 0 && input[|input| - 1] == '\n' then input[..|input| - 1] else input
  }

  /** The parts of `head/container/prefix-tag.csv`. */
  datatype Pieces = Pieces(head: string, container: string, prefix: string, tag: string, ext: string)

  function Join(p: Pieces): string
  {
    p.head + "/" + p.container + "/" + p.prefix + "-" + p.tag + p.ext
  }

  /** The cuts the expression forces: the four-character extension, the last
      `/` (before the file name), the `/` before that (before the container)
      and the last `-` of the file name (before the tag). */
  function Cut(line: string): (r: Option<Pieces>)
    ensures r.Some? ==> line == Join(r.value) && |r.value.ext| == 4
    ensures r.Some? ==> '/' !in r.value.container && '/' !in r.value.prefix + "-" + r.value.tag && '-' !in r.value.tag
  {
    if |line| < 4 then None
    else
      var stem := line[..|line| - 4];
      assert line == stem + line[|line| - 4..];
      match SplitLast(stem, '/')
      case None => None
      case Some((front, filename)) =>
        match SplitLast(filename, '-')
        case None => None
        case Some((prefix, tag)) =>
          match SplitLast(front, '/')
          case None => None
          case Some((head, container)) =>
            Some(Pieces(head, container, prefix, tag, line[|line| - 4..]))
  }

  /** The expression matched against all of `line`. */
  function MatchLine(line: string): (r: Option<OrderBlobAttributes>)
    ensures r.Some? ==> Cut(line).Some? && Decomposes(line, Cut(line).value.head, r.value.ContainerName, r.value.BatchPrefix, r.value.Filetype, Cut(line).value.ext)
    ensures r.Some? ==> r.value.FullUrl == line && r.value.Filename == r.value.BatchPrefix + "-" + r.value.Filetype
  {
    match Cut(line)
    case None => None
    case Some(p) =>
      if IsCsvExtension(p.ext) && IsBatchPrefix(p.prefix) && IsFiletypeTag(p.tag)
         && IsContainerName(p.container) && NoWhitespace(p.head)
      then Some(OrderBlobAttributes(line, p.container, p.prefix + "-" + p.tag, p.prefix, p.tag))
      else None
  }

  /** OrderBlobAttributes.Parse: total, None where the C# code returns null. */
  function Parse(fullUri: string): (r: Option<OrderBlobAttributes>)
    ensures r.Some? ==> fullUri == r.value.FullUrl || fullUri == r.value.FullUrl + "\n"
    ensures r.Some? ==> r.value.Filename == r.value.BatchPrefix + "-" + r.value.Filetype
    ensures r.Some? ==> IsBatchPrefix(r.value.BatchPrefix) && IsFiletypeTag(r.value.Filetype)
    ensures r.Some? ==> '-' !in r.value.Filetype && '/' !in r.value.Filename
    ensures r.Some? ==> IsContainerName(r.value.ContainerName)
  {
    MatchLine(MatchedText(fullUri))
  }

  // ---------------------------------------------------------------------
  // Parse is the regular expression
  // ---------------------------------------------------------------------

  lemma LastIndexOfIs(s: string, c: char, i: int)
    requires 0 <= i < |s| && s[i] == c
    requires forall k :: i < k < |s| ==> s[k] != c
    ensures LastIndexOf(s, c) == i
  {
  }

  /** A cut at a `c` with no `c` after it is the cut SplitLast makes. */
  lemma SplitLastAt(before: string, c: char, after: string)
    requires c !in after
    ensures SplitLast(before + [c] + after, c) == Some((before, after))
  {
    var s := before + [c] + after;
    forall k | |before| < k < |s| ensures s[k] != c {
      assert s[k] == after[k - |before| - 1];
    }
    LastIndexOfIs(s, c, |before|);
    assert s[..|before|] == before && s[|before| + 1..] == after;
  }

  /** Every attribute record Parse returns is a match of the expression. */
  lemma ParseSound(input: string)
    requires Parse(input).Some?
    ensures RegexMatches(input, Parse(input).value)
  {
    var a := Parse(input).value;
    var p := Cut(MatchedText(input)).value;
    assert Decomposes(a.FullUrl, p.head, a.ContainerName, a.BatchPrefix, a.Filetype, p.ext);
  }

  /** A file name built from a prefix and a tag in their classes has no `/`,
      and its tag has no `-`. */
  lemma FilenameChars(prefix: string, tag: string)
    requires IsBatchPrefix(prefix) && IsFiletypeTag(tag)
    ensures '/' !in prefix + "-" + tag && '-' !in tag
  {
    var filename := prefix + "-" + tag;
    forall k | 0 <= k < |filename| ensures filename[k] != '/' {
      if k < |prefix| { assert filename[k] == prefix[k]; }
      else if k > |prefix| { assert filename[k] == tag[k - |prefix| - 1]; }
    }
    assert forall k :: 0 <= k < |tag| ==> tag[k] != '-';
  }

  /** Pieces with no `/` after the head and no `-` in the tag are the ones
      Cut finds in their join. */
  lemma CutFinds(p: Pieces)
    requires |p.ext| == 4 && '/' !in p.container && '/' !in p.prefix + "-" + p.tag && '-' !in p.tag
    ensures Cut(Join(p)) == Some(p)
  {
    var line := Join(p);
    var filename := p.prefix + "-" + p.tag;
    var front := p.head + "/" + p.container;
    assert line == front + "/" + filename + p.ext;
    assert line[..|line| - 4] == front + "/" + filename && line[|line| - 4..] == p.ext;
    SplitLastAt(front, '/', filename);
    SplitLastAt(p.prefix, '-', p.tag);
    SplitLastAt(p.head, '/', p.container);
  }

  /** A decomposition of `line` is the one MatchLine finds. */
  lemma MatchLineFinds(line: string, head: string, container: string, prefix: string, tag: string, ext: string)
    requires Decomposes(line, head, container, prefix, tag, ext)
    ensures MatchLine(line) == Some(OrderBlobAttributes(line, container, prefix + "-" + tag, prefix, tag))
  {
    FilenameChars(prefix, tag);
    CutFinds(Pieces(head, container, prefix, tag, ext));
  }

  /** Every match of the expression is what Parse returns. */
  lemma ParseComplete(input: string, a: OrderBlobAttributes)
    requires RegexMatches(input, a)
    ensures Parse(input) == Some(a)
  {
    var head, ext :| Decomposes(a.FullUrl, head, a.ContainerName, a.BatchPrefix, a.Filetype, ext);
    MatchLineFinds(a.FullUrl, head, a.ContainerName, a.BatchPrefix, a.Filetype, ext);
    assert a.FullUrl[|a.FullUrl| - 1] == ext[3];
    if input == a.FullUrl + "\n" {
      assert input[..|input| - 1] == a.FullUrl;
    }
    assert MatchedText(input) == a.FullUrl;
  }

  /** Parse returns `a` exactly when the expression matches `input` with groups `a`. */
  lemma ParseIsRegexMatch(input: string, a: OrderBlobAttributes)
    ensures Parse(input) == Some(a) <==> RegexMatches(input, a)
  {
    if Parse(input) == Some(a) {
      ParseSound(input);
    }
    if RegexMatches(input, a) {
      ParseComplete(input, a);
    }
  }

  /** Parse returns None exactly when the expression does not match. */
  lemma ParseNoneIsNoMatch(input: string)
    ensures Parse(input).None? <==> forall a :: !RegexMatches(input, a)
  {
    if Parse(input).Some? {
      ParseSound(input);
    }
    forall a | RegexMatches(input, a) ensures Parse(input).Some? {
      ParseComplete(input, a);
    }
  }

  lemma NoWhitespaceConcat(a: string, b: string)
    requires NoWhitespace(a) && NoWhitespace(b)
    ensures NoWhitespace(a + b)
  {
    forall i | 0 <= i < |a + b| ensures !IsWhitespace((a + b)[i]) {
      if i >= |a| { assert (a + b)[i] == b[i - |a|]; }
    }
  }

  // ---------------------------------------------------------------------
  // Worked inputs
  // ---------------------------------------------------------------------

  /** Any URL of the shape `head/container/prefix-tag.csv`, with each part in
      its character class, parses into exactly those parts. A prefix may hold
      `-` itself: the cut is always at the last `-` of the file name. */
  lemma ParseRoundTrip(head: string, container: string, prefix: string, tag: string, ext: string)
    requires NoWhitespace(head) && IsContainerName(container) && IsCsvExtension(ext)
    requires IsBatchPrefix(prefix) && IsFiletypeTag(tag)
    ensures Parse(Join(Pieces(head, container, prefix, tag, ext)))
         == Some(OrderBlobAttributes(Join(Pieces(head, container, prefix, tag, ext)), container, prefix + "-" + tag, prefix, tag))
  {
    var url := Join(Pieces(head, container, prefix, tag, ext));
    assert Decomposes(url, head, container, prefix, tag, ext);
    ParseComplete(url, OrderBlobAttributes(url, container, prefix + "-" + tag, prefix, tag));
  }

  /** The documented URL, cut where the expression cuts it. */
  lemma DocumentedUrlPieces()
    ensures "https://khsvrlessohsaorders.blob.core.windows.net/orders/20180518151300-OrderHeaderDetails.csv"
         == Join(Pieces("https://khsvrlessohsaorders.blob.core.windows.net", "orders", "20180518151300", "OrderHeaderDetails", ".csv"))
  {
    var head := "https://khsvrlessohsaorders.blob.core.windows.net";
    assert head + "/" == "https://khsvrlessohsaorders.blob.core.windows.net/";
    assert head + "/" + "orders" == "https://khsvrlessohsaorders.blob.core.windows.net/orders";
    assert head + "/" + "orders" + "/" == "https://khsvrlessohsaorders.blob.core.windows.net/orders/";
    assert head + "/" + "orders" + "/" + "20180518151300"
        == "https://khsvrlessohsaorders.blob.core.windows.net/orders/20180518151300";
    assert head + "/" + "orders" + "/" + "20180518151300" + "-"
        == "https://khsvrlessohsaorders.blob.core.windows.net/orders/20180518151300-";
    assert head + "/" + "orders" + "/" + "20180518151300" + "-" + "OrderHeaderDetails"
        == "https://khsvrlessohsaorders.blob.core.windows.net/orders/20180518151300-OrderHeaderDetails";
  }

  lemma DocumentedSchemeNoWhitespace()
    ensures NoWhitespace("https://khsvrlessohsaord")
  {
    var a, b, c := "https://", "khsvrles", "sohsaord";
    assert NoWhitespace(a) && NoWhitespace(b) && NoWhitespace(c);
    NoWhitespaceConcat(a, b);
    assert a + b == "https://khsvrles";
    NoWhitespaceConcat(a + b, c);
  }

  lemma DocumentedDomainNoWhitespace()
    ensures NoWhitespace("ers.blob.core.windows.net")
  {
    var a, b, c := "ers.blob", ".core.wi", "ndows.net";
    assert NoWhitespace(a) && NoWhitespace(b) && NoWhitespace(c);
    NoWhitespaceConcat(a, b);
    assert a + b == "ers.blob.core.wi";
    NoWhitespaceConcat(a + b, c);
  }

  /** The documented URL's text before the container has no white space. */
  lemma DocumentedHostNoWhitespace()
    ensures NoWhitespace("https://khsvrlessohsaorders.blob.core.windows.net")
  {
    DocumentedSchemeNoWhitespace();
    DocumentedDomainNoWhitespace();
    NoWhitespaceConcat("https://khsvrlessohsaord", "ers.blob.core.windows.net");
    assert "https://khsvrlessohsaord" + "ers.blob.core.windows.net" == "https://khsvrlessohsaorders.blob.core.windows.net";
  }

  /** The documented groups 1, 3 and 4 are in their character classes. */
  lemma DocumentedGroups()
    ensures IsContainerName("orders") && IsBatchPrefix("20180518151300")
    ensures IsFiletypeTag("OrderHeaderDetails")
    ensures "20180518151300" + "-" + "OrderHeaderDetails" == "20180518151300-OrderHeaderDetails"
  {
    assert IsFiletypeTag("OrderHeader") && IsFiletypeTag("Details");
    assert "OrderHeader" + "Details" == "OrderHeaderDetails";
    assert forall i :: 0 <= i < 18 ==> ("OrderHeader" + "Details")[i] == if i < 11 then "OrderHeader"[i] else "Details"[i - 11];
  }

  /** The URL of the comment beside Parse and the groups it lists. */
  lemma DocumentedExample(url: string)
    requires url == "https://khsvrlessohsaorders.blob.core.windows.net/orders/20180518151300-OrderHeaderDetails.csv"
    ensures Parse(url) == Some(OrderBlobAttributes(url, "orders", "20180518151300-OrderHeaderDetails",
                                                   "20180518151300", "OrderHeaderDetails"))
  {
    var head := "https://khsvrlessohsaorders.blob.core.windows.net";
    DocumentedUrlPieces();
    DocumentedHostNoWhitespace();
    DocumentedGroups();
    assert Decomposes(url, head, "orders", "20180518151300", "OrderHeaderDetails", ".csv");
    ParseComplete(url, OrderBlobAttributes(url, "orders", "20180518151300-OrderHeaderDetails",
                                           "20180518151300", "OrderHeaderDetails"));
  }
}
