/**
 * The client's feed parser (App.jsx `fetchListings` and
 * `fetchDashboardListings`): the trimmed body is split on newlines, each
 * line on `, `, and each piece on `: `; `[k, v]` keeps the first two
 * results, the key is trimmed and lower-cased, the value trimmed, and the
 * pieces are folded into a dictionary with `reduce`. A piece without `: `
 * leaves `v` undefined and `v.trim()` throws, which aborts the whole parse.
 */
module RecordParser {
  import opened Wrappers
  import opened Strings

  /** A listing as the client holds it; a field is `None` when it is `undefined`. */
  datatype ClientListing = ClientListing(
    id: Option<string>,
    name: Option<string>,
    description: Option<string>,
    paymentPerDay: Option<string>,
    image: Option<string>)

  /** The `TypeError` of `v.trim()`, carrying the piece that had no `: `. */
  datatype ParseError = MissingValue(piece: string)

  /** `fetchListings` reads `description`; `fetchDashboardListings` prefers a non-empty `desc`. */
  datatype Parser = ListingsParser | DashboardParser

  /** The text of `s` before the first `sep`, or all of `s`: the first result of `s.split(sep)`. */
  function UpTo(s: string, sep: string): (r: string)
    requires |sep| > 0
    ensures r == Split(s, sep)[0]
  {
    match Find(s, sep)
    case None => s
    case Some(j) => s[..j]
  }

  /** One piece: `const [k, v] = cur.split(": ")`, then `k.trim().toLowerCase()` and `v.trim()`. */
  function ParsePiece(piece: string): (r: Result<(string, string), ParseError>)
    ensures r.Err? <==> !Contains(piece, ": ")
    ensures r.Err? ==> r.error == MissingValue(piece)
  {
    var kv := Split(piece, ": ");
    if |kv| < 2 then Err(MissingValue(piece))
    else Ok((ToLower(Trim(kv[0])), Trim(kv[1])))
  }

  /**
   * The key is the text before the first `: `, and the value only the text
   * between the first and the second: whatever follows a second `: ` is dropped.
   */
  lemma PieceKeyValue(piece: string)
    requires Contains(piece, ": ")
    ensures var i := Find(piece, ": ").value;
      ParsePiece(piece) == Ok((ToLower(Trim(piece[..i])), Trim(UpTo(piece[i + 2..], ": "))))
  {
  }

  /** A dictionary lookup that gives `undefined` for an absent key. */
  function Lookup(fields: map<string, string>, k: string): (r: Option<string>)
    ensures r.Some? <==> k in fields
    ensures r.Some? ==> r.value == fields[k]
  {
    if k in fields then Some(fields[k]) else None
  }

  /** `line.split(", ").reduce((acc, cur) => { acc[k] = v; return acc; }, acc)`. */
  function Reduce(acc: map<string, string>, pieces: seq<string>): (r: Result<map<string, string>, ParseError>)
    ensures r.Ok? <==> forall i :: 0 <= i < |pieces| ==> Contains(pieces[i], ": ")
    ensures r.Ok? ==> acc.Keys <= r.value.Keys
    decreases |pieces|
  {
    if pieces == [] then Ok(acc)
    else
      match ParsePiece(pieces[0])
      case Err(e) => Err(e)
      case Ok(kv) => Reduce(acc[kv.0 := kv.1], pieces[1..])
  }

  /**
   * Reference reading of the fold: the value of key `k` is that of the LAST
   * piece whose key is `k`, if there is one.
   */
  function LastValue(pieces: seq<string>, k: string): Option<string> {
    if pieces == [] then None
    else
      var later := LastValue(pieces[1..], k);
      if later.Some? then later
      else match ParsePiece(pieces[0])
        case Ok(kv) => if kv.0 == k then Some(kv.1) else None
        case Err(_) => None
  }

  /**
   * A repeated key keeps the value of its last piece; a key that no piece
   * names keeps what the accumulator had (for the empty start: undefined).
   */
  lemma {:induction false} ReduceLastWins(acc: map<string, string>, pieces: seq<string>, k: string)
    requires Reduce(acc, pieces).Ok?
    ensures Lookup(Reduce(acc, pieces).value, k) ==
      if LastValue(pieces, k).Some? then LastValue(pieces, k) else Lookup(acc, k)
    decreases |pieces|
  {
    if pieces != [] {
      var kv := ParsePiece(pieces[0]).value;
      assert Reduce(acc, pieces) == Reduce(acc[kv.0 := kv.1], pieces[1..]);
      ReduceLastWins(acc[kv.0 := kv.1], pieces[1..], k);
    }
  }

  /** The map the fold builds from pieces already read as key/value pairs: each pair stored in turn. */
  function StoreAll(acc: map<string, string>, kvs: seq<(string, string)>): map<string, string>
    decreases |kvs|
  {
    if kvs == [] then acc else StoreAll(acc[kvs[0].0 := kvs[0].1], kvs[1..])
  }

  /** When every piece reads as its pair, the fold succeeds and stores the pairs in order. */
  lemma {:induction false} ReduceParsed(acc: map<string, string>, pieces: seq<string>, kvs: seq<(string, string)>)
    requires |kvs| == |pieces|
    requires forall i :: 0 <= i < |pieces| ==> ParsePiece(pieces[i]) == Ok(kvs[i])
    ensures Reduce(acc, pieces) == Ok(StoreAll(acc, kvs))
    decreases |pieces|
  {
    if pieces != [] {
      assert ParsePiece(pieces[0]) == Ok(kvs[0]);
      assert forall i :: 0 <= i < |pieces| - 1 ==> pieces[1..][i] == pieces[i + 1] && kvs[1..][i] == kvs[i + 1];
      ReduceParsed(acc[kvs[0].0 := kvs[0].1], pieces[1..], kvs[1..]);
    }
  }

  /** The fields of one line. */
  function ParseFields(line: string): Result<map<string, string>, ParseError> {
    Reduce(map[], Split(line, ", "))
  }

  /** The record the client builds from a line's fields; unknown keys are ignored. */
  function ToRecord(fields: map<string, string>, p: Parser): ClientListing {
    ClientListing(
      Lookup(fields, "id"),
      Lookup(fields, "name"),
      match p
      case ListingsParser => Lookup(fields, "description")
      case DashboardParser =>
        // `parts.desc || parts.description`: an empty `desc` is falsy
        if "desc" in fields && fields["desc"] != "" then Some(fields["desc"]) else Lookup(fields, "description"),
      Lookup(fields, "payment"),
      Lookup(fields, "image"))
  }

  function ParseLine(line: string, p: Parser): Result<ClientListing, ParseError> {
    match ParseFields(line)
    case Err(e) => Err(e)
    case Ok(fields) => Ok(ToRecord(fields, p))
  }

  /** `lines.map(...)`: one record per line, in order, or the first line's error. */
  function ParseLines(lines: seq<string>, p: Parser): (r: Result<seq<ClientListing>, ParseError>)
    ensures r.Ok? <==> forall i :: 0 <= i < |lines| ==> ParseLine(lines[i], p).Ok?
    ensures r.Ok? ==> |r.value| == |lines|
    ensures r.Ok? ==> forall i :: 0 <= i < |lines| ==> r.value[i] == ParseLine(lines[i], p).value
  {
    if lines == [] then Ok([])
    else
      var head := ParseLine(lines[0], p);
      var rest := ParseLines(lines[1..], p);
      assert forall i :: 1 <= i < |lines| ==> lines[i] == lines[1..][i - 1];
      if head.Err? then Err(head.error)
      else if rest.Err? then Err(rest.error)
      else Ok([head.value] + rest.value)
  }

  /** The whole body: `text.trim().split("\n").map(...)`. */
  function ParseFeed(body: string, p: Parser): Result<seq<ClientListing>, ParseError> {
    ParseLines(Split(Trim(body), "\n"), p)
  }

  /** An empty or all-whitespace body is not an empty list: the parse fails on the empty piece. */
  lemma EmptyBodyRejected(body: string, p: Parser)
    requires forall i :: 0 <= i < |body| ==> IsSpace(body[i])
    ensures ParseFeed(body, p) == Err(MissingValue(""))
  {
    TrimAllSpace(body);
    assert Split("", "\n") == [""];
    assert Split("", ", ") == [""];
    assert Split("", ": ") == [""];
  }

  /** The per-user parser takes the description from a non-empty `desc`, else from `description`. */
  lemma DashboardDescription(fields: map<string, string>)
    ensures ToRecord(fields, DashboardParser).description ==
      if Lookup(fields, "desc").Some? && Lookup(fields, "desc").value != "" then Lookup(fields, "desc")
      else Lookup(fields, "description")
    ensures ToRecord(fields, ListingsParser).description == Lookup(fields, "description")
  {
  }
}
