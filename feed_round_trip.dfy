/**
 * The server's feed lines read back by the client's parser. For a
 * non-empty sequence of listings whose text fields contain no `, `, no `: `
 * and no newline and carry no surrounding whitespace, and whose last image
 * path is not empty, the client recovers one record per listing, in order:
 * the id and payment as their decimal text and the other fields verbatim.
 */
module FeedRoundTrip {
  import opened Wrappers
  import opened Strings
  import opened Decimal
  import opened ListingFeed
  import opened RecordParser

  /** A text field the line format carries verbatim. */
  predicate SafeField(s: string) {
    !Contains(s, ", ") && !Contains(s, ": ") && NoChar(s, '\n') && Trimmed(s)
  }

  predicate SafeListing(l: Listing) {
    SafeField(l.name) && SafeField(l.description) && SafeField(l.imagePath)
  }

  /** The client parser that reads each feed. */
  function ParserFor(f: Feed): Parser {
    match f
    case AllListings => ListingsParser
    case UserListings => DashboardParser
  }

  /** The record the client should build from a listing's line. */
  function ClientView(l: Listing, f: Feed): ClientListing {
    ClientListing(
      Some(FormatInt(l.id)),
      Some(l.name),
      match f
      case AllListings => Some(l.description)
      // an empty `desc` is falsy, and the per-user line has no `description` to fall back on
      case UserListings => if l.description == "" then None else Some(l.description),
      Some(FormatInt(l.paymentPerDay)),
      Some(l.imagePath))
  }

  /** The records the client should build from the lines of a feed, in order. */
  function ClientViews(ls: seq<Listing>, f: Feed): seq<ClientListing> {
    if ls == [] then [] else [ClientView(ls[0], f)] + ClientViews(ls[1..], f)
  }

  /** One record per listing, the i-th made from the i-th listing. */
  lemma {:induction false} ClientViewsAt(ls: seq<Listing>, f: Feed, i: nat)
    requires i < |ls|
    ensures |ClientViews(ls, f)| == |ls| && ClientViews(ls, f)[i] == ClientView(ls[i], f)
    decreases |ls|
  {
    if |ls| > 1 {
      ClientViewsAt(ls[1..], f, if i == 0 then 0 else i - 1);
    }
  }

  /** A feed line without its newline. */
  function LineText(l: Listing, f: Feed): string {
    Join(Pieces(l, f), ", ")
  }

  /** The lines of a feed without their newlines, in order. */
  function LineTexts(ls: seq<Listing>, f: Feed): seq<string> {
    if ls == [] then [] else [LineText(ls[0], f)] + LineTexts(ls[1..], f)
  }

  /** One line per listing, the i-th written from the i-th listing. */
  lemma {:induction false} LineTextsAt(ls: seq<Listing>, f: Feed, i: nat)
    requires i < |ls|
    ensures |LineTexts(ls, f)| == |ls| && LineTexts(ls, f)[i] == LineText(ls[i], f)
    decreases |ls|
  {
    if |ls| > 1 {
      LineTextsAt(ls[1..], f, if i == 0 then 0 else i - 1);
    }
  }

  lemma SeparatorsBorderFree()
    ensures BorderFree(", ") && BorderFree(": ") && BorderFree("\n")
  {
    assert ", "[1..] == [' '] && ", "[..1] == [','];
    assert ": "[1..] == [' '] && ": "[..1] == [':'];
  }

  /** `toLowerCase` gives `t` when it does so character by character. */
  lemma LowerOf(s: string, t: string)
    requires |s| == |t| && forall i :: 0 <= i < |s| ==> LowerChar(s[i]) == t[i]
    ensures ToLower(s) == t
  {
  }

  lemma LowerId() ensures ToLower("ID") == "id" { LowerOf("ID", "id"); }
  lemma LowerName() ensures ToLower("Name") == "name" { LowerOf("Name", "name"); }
  lemma LowerPayment() ensures ToLower("Payment") == "payment" { LowerOf("Payment", "payment"); }
  lemma LowerImage() ensures ToLower("Image") == "image" { LowerOf("Image", "image"); }

  /** The description key lower-cases to the name each client parser looks up. */
  lemma LowerDescriptionKey(f: Feed)
    ensures ToLower(DescriptionKey(f)) == if f.AllListings? then "description" else "desc"
  {
    if f.AllListings? {
      LowerOf("Description", "description");
    } else {
      LowerOf("Desc", "desc");
    }
  }

  /** The decimal text of an integer is a safe field. */
  lemma FormatIntSafe(n: int)
    ensures SafeField(FormatInt(n))
    ensures NoChar(FormatInt(n), ',') && NoChar(FormatInt(n), ':')
  {
    var s := FormatInt(n);
    FormatIntShape(n);
    assert NoChar(s, ',') && NoChar(s, ':') && NoChar(s, '\n');
    NoHeadNoOccurrence(s, ", ");
    NoHeadNoOccurrence(s, ": ");
  }

  /** A keyed piece with a safe value reads back as the lower-cased key and the value. */
  lemma ParseField(key: string, value: string)
    requires key != [] && NoChar(key, ':') && NoChar(key, ' ') && Trimmed(key)
    requires !Contains(value, ": ") && Trimmed(value)
    ensures ParsePiece(Field(key, value)) == Ok((ToLower(key), value))
  {
    SeparatorsBorderFree();
    NoHeadNoOccurrence(key, ": ");
    FirstOccurrence(key, ": ", value);
    var s := Field(key, value);
    assert s[..|key|] == key;
    assert s[|key| + 2..] == value;
    assert Split(value, ": ") == [value];
    assert Split(s, ": ") == [key] + [value];
    TrimFixesTrimmed(key);
    TrimFixesTrimmed(value);
  }

  /** A keyed piece whose key has no comma and whose value has no `, ` contains no `, `. */
  lemma FieldNoComma(key: string, value: string)
    requires NoChar(key, ',') && !Contains(value, ", ")
    ensures !Contains(Field(key, value), ", ")
  {
    var head := key + ": ";
    assert NoChar(head, ',');
    NoHeadNoOccurrence(head, ", ");
    ConcatNoOccurrence(head, value, ", ");
    assert Field(key, value) == head + value;
  }

  lemma {:induction false} JoinNoChar(parts: seq<string>, sep: string, c: char)
    requires |parts| >= 1 && NoChar(sep, c)
    requires forall i :: 0 <= i < |parts| ==> NoChar(parts[i], c)
    ensures NoChar(Join(parts, sep), c)
    decreases |parts|
  {
    if |parts| > 1 {
      JoinNoChar(parts[1..], sep, c);
    }
  }

  lemma {:induction false} JoinSuffix(parts: seq<string>, sep: string)
    requires |parts| >= 1
    ensures var j := Join(parts, sep); var last := parts[|parts| - 1];
      |last| <= |j| && j[|j| - |last|..] == last
    decreases |parts|
  {
    if |parts| > 1 {
      JoinSuffix(parts[1..], sep);
    }
  }

  lemma JoinPrefix(parts: seq<string>, sep: string)
    requires |parts| >= 1
    ensures |parts[0]| <= |Join(parts, sep)| && Join(parts, sep)[..|parts[0]|] == parts[0]
  {
  }

  /** The piece of each field reads back as its lower-cased key and its value. */
  lemma ParseIdField(id: int)
    ensures ParsePiece(Field("ID", FormatInt(id))) == Ok(("id", FormatInt(id)))
  {
    FormatIntSafe(id);
    ParseField("ID", FormatInt(id));
    LowerId();
  }

  lemma ParseNameField(name: string)
    requires SafeField(name)
    ensures ParsePiece(Field("Name", name)) == Ok(("name", name))
  {
    ParseField("Name", name);
    LowerName();
  }

  lemma ParseDescriptionField(f: Feed, description: string)
    requires SafeField(description)
    ensures ParsePiece(Field(DescriptionKey(f), description)) == Ok((ToLower(DescriptionKey(f)), description))
  {
    ParseField(DescriptionKey(f), description);
  }

  lemma ParsePaymentField(payment: int)
    ensures ParsePiece(Field("Payment", FormatInt(payment))) == Ok(("payment", FormatInt(payment)))
  {
    FormatIntSafe(payment);
    ParseField("Payment", FormatInt(payment));
    LowerPayment();
  }

  lemma ParseImageField(image: string)
    requires SafeField(image)
    ensures ParsePiece(Field("Image", image)) == Ok(("image", image))
  {
    ParseField("Image", image);
    LowerImage();
  }

  /** The key and the value each piece of a listing's line carries, as the client reads them. */
  function KeyValues(l: Listing, f: Feed): seq<(string, string)> {
    [("id", FormatInt(l.id)), ("name", l.name), (ToLower(DescriptionKey(f)), l.description),
     ("payment", FormatInt(l.paymentPerDay)), ("image", l.imagePath)]
  }

  /** Pieces without `, ` that each read as a pair: their join reads back as those pairs stored in turn. */
  lemma ParseJoined(pieces: seq<string>, kvs: seq<(string, string)>)
    requires |pieces| >= 1 && |kvs| == |pieces|
    requires forall i :: 0 <= i < |pieces| ==> !Contains(pieces[i], ", ")
    requires forall i :: 0 <= i < |pieces| ==> ParsePiece(pieces[i]) == Ok(kvs[i])
    ensures ParseFields(Join(pieces, ", ")) == Ok(StoreAll(map[], kvs))
  {
    SeparatorsBorderFree();
    SplitJoin(pieces, ", ");
    ReduceParsed(map[], pieces, kvs);
  }

  /** No piece of a safe listing's line contains `, `. */
  lemma PiecesNoComma(l: Listing, f: Feed)
    requires SafeListing(l)
    ensures forall i :: 0 <= i < |Pieces(l, f)| ==> !Contains(Pieces(l, f)[i], ", ")
  {
    var p := Pieces(l, f);
    assert !Contains(p[0], ", ") && !Contains(p[3], ", ") by {
      FormatIntSafe(l.id);
      FormatIntSafe(l.paymentPerDay);
      FieldNoComma("ID", FormatInt(l.id));
      FieldNoComma("Payment", FormatInt(l.paymentPerDay));
    }
    assert !Contains(p[1], ", ") by {
      FieldNoComma("Name", l.name);
    }
    assert !Contains(p[2], ", ") by {
      FieldNoComma(DescriptionKey(f), l.description);
    }
    assert !Contains(p[4], ", ") by {
      FieldNoComma("Image", l.imagePath);
    }
    forall i | 0 <= i < |p| ensures !Contains(p[i], ", ") {
      assert i == 0 || i == 1 || i == 2 || i == 3 || i == 4;
    }
  }

  /** Each piece of a safe listing's line reads as its lower-cased key and its value. */
  lemma PiecesParse(l: Listing, f: Feed)
    requires SafeListing(l)
    ensures forall i :: 0 <= i < |Pieces(l, f)| ==> ParsePiece(Pieces(l, f)[i]) == Ok(KeyValues(l, f)[i])
  {
    var p, kv := Pieces(l, f), KeyValues(l, f);
    assert ParsePiece(p[0]) == Ok(kv[0]) by {
      ParseIdField(l.id);
    }
    assert ParsePiece(p[1]) == Ok(kv[1]) by {
      ParseNameField(l.name);
    }
    assert ParsePiece(p[2]) == Ok(kv[2]) by {
      ParseDescriptionField(f, l.description);
    }
    assert ParsePiece(p[3]) == Ok(kv[3]) by {
      ParsePaymentField(l.paymentPerDay);
    }
    assert ParsePiece(p[4]) == Ok(kv[4]) by {
      ParseImageField(l.imagePath);
    }
    forall i | 0 <= i < |p| ensures ParsePiece(p[i]) == Ok(kv[i]) {
      assert i == 0 || i == 1 || i == 2 || i == 3 || i == 4;
    }
  }

  /** Storing five pairs in turn. */
  lemma StoreFive(kvs: seq<(string, string)>)
    requires |kvs| == 5
    ensures StoreAll(map[], kvs) == map[][kvs[0].0 := kvs[0].1][kvs[1].0 := kvs[1].1]
      [kvs[2].0 := kvs[2].1][kvs[3].0 := kvs[3].1][kvs[4].0 := kvs[4].1]
  {
    var m1 := map[][kvs[0].0 := kvs[0].1];
    var m2 := m1[kvs[1].0 := kvs[1].1];
    var m3 := m2[kvs[2].0 := kvs[2].1];
    var m4 := m3[kvs[3].0 := kvs[3].1];
    var m5 := m4[kvs[4].0 := kvs[4].1];
    assert kvs[1..][1..] == kvs[2..] && kvs[2..][1..] == kvs[3..];
    assert kvs[3..][1..] == kvs[4..] && kvs[4..][1..] == [];
    assert StoreAll(m4, kvs[4..]) == m5;
    assert StoreAll(m3, kvs[3..]) == StoreAll(m4, kvs[4..]);
    assert StoreAll(m2, kvs[2..]) == StoreAll(m3, kvs[3..]);
    assert StoreAll(m1, kvs[1..]) == StoreAll(m2, kvs[2..]);
  }

  /** The keys the client looks up are pairwise different. */
  lemma KeysDistinct()
    ensures var keys := ["id", "name", "description", "desc", "payment", "image"];
      forall i, j :: 0 <= i < j < |keys| ==> keys[i] != keys[j]
  {
    var keys := ["id", "name", "description", "desc", "payment", "image"];
    assert keys[1][0] != keys[3][0];
    forall i, j | 0 <= i < j < |keys| ensures keys[i] != keys[j] {
      if i == 1 && j == 3 {
        assert keys[i][0] != keys[j][0];
      } else {
        assert |keys[i]| != |keys[j]|;
      }
    }
  }

  /** Five values stored under the client's keys make up a record with those values. */
  lemma RecordOfFive(a: string, b: string, c: string, d: string, e: string, p: Parser)
    ensures var descKey := if p.ListingsParser? then "description" else "desc";
      var m := map[]["id" := a]["name" := b][descKey := c]["payment" := d]["image" := e];
      ToRecord(m, p) == ClientListing(Some(a), Some(b), if p.DashboardParser? && c == "" then None else Some(c), Some(d), Some(e))
  {
    KeysDistinct();
    var keys := ["id", "name", "description", "desc", "payment", "image"];
    assert keys[0] == "id" && keys[1] == "name" && keys[2] == "description";
    assert keys[3] == "desc" && keys[4] == "payment" && keys[5] == "image";
  }

  /** The fields a safe listing's line stores make up the listing's client record. */
  lemma RecordOfFields(l: Listing, f: Feed)
    ensures ToRecord(StoreAll(map[], KeyValues(l, f)), ParserFor(f)) == ClientView(l, f)
  {
    var kv := KeyValues(l, f);
    StoreFive(kv);
    LowerDescriptionKey(f);
    RecordOfFive(FormatInt(l.id), l.name, l.description, FormatInt(l.paymentPerDay), l.imagePath, ParserFor(f));
  }

  /** One line reads back as the listing's client record. */
  lemma LineRoundTrip(l: Listing, f: Feed)
    requires SafeListing(l)
    ensures ParseLine(LineText(l, f), ParserFor(f)) == Ok(ClientView(l, f))
  {
    PiecesNoComma(l, f);
    PiecesParse(l, f);
    ParseJoined(Pieces(l, f), KeyValues(l, f));
    RecordOfFields(l, f);
  }

  /** Each text followed by a newline. */
  function Terminated(texts: seq<string>): string {
    if texts == [] then "" else texts[0] + "\n" + Terminated(texts[1..])
  }

  /** Newline-terminated texts are the texts joined by newlines, plus a final newline. */
  lemma {:induction false} TerminatedAsJoin(texts: seq<string>)
    requires |texts| >= 1
    ensures Terminated(texts) == Join(texts, "\n") + "\n"
    decreases |texts|
  {
    if |texts| > 1 {
      TerminatedAsJoin(texts[1..]);
    }
  }

  /** The feed's lines are the line texts, each followed by a newline. */
  lemma {:induction false} LinesTerminated(ls: seq<Listing>, f: Feed)
    ensures Lines(ls, f) == Terminated(LineTexts(ls, f))
    decreases |ls|
  {
    if ls != [] {
      LinesTerminated(ls[1..], f);
      var ss, texts := FormattedLines(ls, f), LineTexts(ls, f);
      assert ss[0] == texts[0] + "\n" && ss[1..] == FormattedLines(ls[1..], f);
      assert texts[1..] == LineTexts(ls[1..], f);
    }
  }

  /** The feed body is the line texts joined by newlines, plus a final newline. */
  lemma LinesAsJoin(ls: seq<Listing>, f: Feed)
    requires |ls| >= 1
    ensures Lines(ls, f) == Join(LineTexts(ls, f), "\n") + "\n"
  {
    LinesTerminated(ls, f);
    TerminatedAsJoin(LineTexts(ls, f));
  }

  /** A keyed piece has no character `c` when neither its key nor its value has, and `c` is not in `: `. */
  lemma FieldNoChar(key: string, value: string, c: char)
    requires NoChar(key, c) && NoChar(value, c) && c != ':' && c != ' '
    ensures NoChar(Field(key, value), c)
  {
    var s := Field(key, value);
    forall i | 0 <= i < |s| ensures s[i] != c {
      if i < |key| {
        assert s[i] == key[i];
      } else if i >= |key| + 2 {
        assert s[i] == value[i - |key| - 2];
      }
    }
  }

  /** A safe listing's line has no newline. */
  lemma LineNoNewline(l: Listing, f: Feed)
    requires SafeListing(l)
    ensures NoChar(LineText(l, f), '\n')
  {
    var p := Pieces(l, f);
    FormatIntSafe(l.id);
    FormatIntSafe(l.paymentPerDay);
    assert NoChar(DescriptionKey(f), '\n');
    FieldNoChar("ID", FormatInt(l.id), '\n');
    FieldNoChar("Name", l.name, '\n');
    FieldNoChar(DescriptionKey(f), l.description, '\n');
    FieldNoChar("Payment", FormatInt(l.paymentPerDay), '\n');
    FieldNoChar("Image", l.imagePath, '\n');
    JoinNoChar(p, ", ", '\n');
  }

  /** A line starts with the `I` of `ID`, which is not a space. */
  lemma LineStart(l: Listing, f: Feed)
    ensures LineText(l, f) != [] && !IsSpace(LineText(l, f)[0])
  {
    var p := Pieces(l, f);
    JoinPrefix(p, ", ");
    assert p[0][0] == 'I';
  }

  /** A line ends with the last character of its image path, which is not a space when the path is trimmed. */
  lemma LineEnd(l: Listing, f: Feed)
    requires l.imagePath != [] && Trimmed(l.imagePath)
    ensures var t := LineText(l, f); t != [] && !IsSpace(t[|t| - 1])
  {
    var p := Pieces(l, f);
    var t := LineText(l, f);
    JoinSuffix(p, ", ");
    var img, last := l.imagePath, p[4];
    assert last[|last| - |img|..] == img by {
      assert last == "Image: " + img;
    }
    var tEnd := t[|t| - |last|..];
    assert tEnd == last && tEnd[|tEnd| - 1] == t[|t| - 1];
    assert t[|t| - 1] == img[|img| - 1];
  }

  /** Every listing of the sequence is safe. */
  predicate AllSafe(ls: seq<Listing>) {
    forall i :: 0 <= i < |ls| ==> SafeListing(ls[i])
  }

  /** The first line starts, and the last line ends, with a non-space. */
  predicate SolidEnds(texts: seq<string>) {
    |texts| >= 1 && texts[0] != [] && !IsSpace(texts[0][0])
    && texts[|texts| - 1] != [] && !IsSpace(texts[|texts| - 1][|texts[|texts| - 1]| - 1])
  }

  lemma SolidEndsOf(texts: seq<string>, first: string, last: string)
    requires |texts| >= 1 && texts[0] == first && texts[|texts| - 1] == last
    requires first != [] && !IsSpace(first[0]) && last != [] && !IsSpace(last[|last| - 1])
    ensures SolidEnds(texts)
  {
  }

  /** Lines joined by newlines, starting and ending with a non-space, lose only the final newline to `trim`. */
  lemma TrimJoinedLines(texts: seq<string>)
    requires SolidEnds(texts)
    ensures Trim(Join(texts, "\n") + "\n") == Join(texts, "\n")
  {
    var body := Join(texts, "\n");
    var last := texts[|texts| - 1];
    JoinPrefix(texts, "\n");
    JoinSuffix(texts, "\n");
    var bodyEnd := body[|body| - |last|..];
    assert bodyEnd == last && bodyEnd[|bodyEnd| - 1] == body[|body| - 1];
    assert body[..|texts[0]|] == texts[0] && body[0] == texts[0][0];
    TrimDropsTrailingSpace(body, "\n");
  }

  /** The first line starts, and the last line ends, with a non-space when the last image path is trimmed. */
  lemma LineTextsEnds(ls: seq<Listing>, f: Feed)
    requires |ls| >= 1 && ls[|ls| - 1].imagePath != [] && Trimmed(ls[|ls| - 1].imagePath)
    ensures |LineTexts(ls, f)| == |ls| && SolidEnds(LineTexts(ls, f))
  {
    var texts := LineTexts(ls, f);
    LineTextsAt(ls, f, 0);
    LineTextsAt(ls, f, |ls| - 1);
    LineStart(ls[0], f);
    LineEnd(ls[|ls| - 1], f);
    SolidEndsOf(texts, LineText(ls[0], f), LineText(ls[|ls| - 1], f));
  }

  /** A body of lines whose last image path is trimmed and not empty loses only its final newline to `trim`. */
  lemma BodyTrim(ls: seq<Listing>, f: Feed)
    requires |ls| >= 1 && ls[|ls| - 1].imagePath != [] && Trimmed(ls[|ls| - 1].imagePath)
    ensures Trim(Join(LineTexts(ls, f), "\n") + "\n") == Join(LineTexts(ls, f), "\n")
  {
    var texts := LineTexts(ls, f);
    LineTextsEnds(ls, f);
    TrimJoinedLines(texts);
  }

  /** The trimmed body of safe lines splits on newlines into exactly those lines. */
  lemma BodySplit(ls: seq<Listing>, f: Feed)
    requires |ls| >= 1 && AllSafe(ls)
    ensures Split(Join(LineTexts(ls, f), "\n"), "\n") == LineTexts(ls, f)
  {
    var texts := LineTexts(ls, f);
    LineTextsAt(ls, f, 0);
    forall i | 0 <= i < |texts| ensures !Contains(texts[i], "\n") {
      LineTextsAt(ls, f, i);
      LineNoNewline(ls[i], f);
      NoHeadNoOccurrence(texts[i], "\n");
    }
    SeparatorsBorderFree();
    SplitJoin(texts, "\n");
  }

  /** Each safe line parses to its listing's client record. */
  lemma LinesParse(ls: seq<Listing>, f: Feed)
    requires AllSafe(ls)
    ensures ParseLines(LineTexts(ls, f), ParserFor(f)) == Ok(ClientViews(ls, f))
  {
    var texts, views := LineTexts(ls, f), ClientViews(ls, f);
    if ls != [] {
      LineTextsAt(ls, f, 0);
      ClientViewsAt(ls, f, 0);
    }
    forall i | 0 <= i < |ls| ensures ParseLine(texts[i], ParserFor(f)) == Ok(views[i]) {
      LineTextsAt(ls, f, i);
      ClientViewsAt(ls, f, i);
      LineRoundTrip(ls[i], f);
    }
    var r := ParseLines(texts, ParserFor(f));
    assert r.Ok? && |r.value| == |ls|;
    assert r.value == views;
  }

  /** The steps of `ParseFeed`: trim the body, split it into lines, parse each line. */
  lemma ParseFeedSteps(feed: string, body: string, texts: seq<string>, views: seq<ClientListing>, p: Parser)
    requires Trim(feed) == body && Split(body, "\n") == texts && ParseLines(texts, p) == Ok(views)
    ensures ParseFeed(feed, p) == Ok(views)
  {
  }

  /**
   * The round trip: the client's parse of the server's feed is one record per
   * listing that scanned, in query order, each the listing's client view.
   */
  lemma FeedRoundTrip(rows: seq<Row>, f: Feed)
    requires var ls := ScannedListings(rows);
      |ls| >= 1 && ls[|ls| - 1].imagePath != [] && AllSafe(ls)
    ensures ParseFeed(FeedText(rows, f), ParserFor(f)) == Ok(ClientViews(ScannedListings(rows), f))
  {
    var ls := ScannedListings(rows);
    var texts := LineTexts(ls, f);
    LinesAsJoin(ls, f);
    BodyTrim(ls, f);
    BodySplit(ls, f);
    LinesParse(ls, f);
    ParseFeedSteps(FeedText(rows, f), Join(texts, "\n"), texts, ClientViews(ls, f), ParserFor(f));
  }
}
