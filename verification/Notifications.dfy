/**
 Background-task notifications: how they are printed (cc-tui/src/app/background_shell.rs) and how the display finds
 and reads them again (cc-tui-core/src/shell_notification.rs).
 */
module Notifications {
  import opened Wrappers
  import opened Text
  import opened Xml

  datatype Block = Block(tag: string, body: string)

  /** A block found in a text: the tag, and where its body starts and ends. */
  datatype Found = Found(tag: string, bodyStart: nat, bodyEnd: nat)

  function Candidate(cursor: string, tag: string): (r: Option<Found>)
    ensures r.Some? ==> r.value.bodyStart <= r.value.bodyEnd && r.value.bodyEnd + |CloseTag(tag)| <= |cursor|
    ensures r.Some? ==> r.value.tag == tag
  {
    var open := Find(cursor, OpenTag(tag));
    if open.None? then None else
    var bodyStart := open.value + |OpenTag(tag)|;
    var close := Find(cursor[bodyStart..], CloseTag(tag));
    if close.None? then None else Some(Found(tag, bodyStart, bodyStart + close.value))
  }

  /** Of the candidates of all tags the one whose body starts first. */
  function NextBlock(cursor: string, tags: seq<string>): (r: Option<Found>)
    ensures r.Some? ==> r.value.bodyStart <= r.value.bodyEnd && r.value.bodyEnd + |CloseTag(r.value.tag)| <= |cursor|
  {
    if tags == [] then None else
    var first, rest := Candidate(cursor, tags[0]), NextBlock(cursor, tags[1..]);
    if first.None? then rest
    else if rest.None? || first.value.bodyStart <= rest.value.bodyStart then first else rest
  }

  /** The blocks that the display loop renders, in order. */
  function Scan(cursor: string, tags: seq<string>): seq<Block>
    decreases |cursor|
  {
    match NextBlock(cursor, tags)
    case None => []
    case Some(f) =>
      [Block(f.tag, cursor[f.bodyStart..f.bodyEnd])] + Scan(cursor[f.bodyEnd + |CloseTag(f.tag)|..], tags)
  }

  method ScanLoop(notification: string, tags: seq<string>) returns (items: seq<Block>)
    ensures items == Scan(notification, tags)
  {
    hide NextBlock;
    items := [];
    var cursor := notification;
    var next := NextBlock(cursor, tags);
    while next.Some?
      invariant next == NextBlock(cursor, tags)
      invariant items + Scan(cursor, tags) == Scan(notification, tags)
      decreases |cursor|
    {
      var f := next.value;
      items := items + [Block(f.tag, cursor[f.bodyStart..f.bodyEnd])];
      cursor := cursor[f.bodyEnd + |CloseTag(f.tag)|..];
      next := NextBlock(cursor, tags);
    }
  }

  // ---- documents of well-formed blocks ----

  /** A block with the text in front of it. */
  datatype Piece = Piece(before: string, block: Block)

  function PrintBlock(b: Block): string { OpenTag(b.tag) + b.body + CloseTag(b.tag) }

  function Print(pieces: seq<Piece>, after: string): string {
    if pieces == [] then after else
    pieces[0].before + PrintBlock(pieces[0].block) + Print(pieces[1..], after)
  }

  ghost predicate NoOpenTag(s: string, tags: seq<string>) {
    forall t :: t in tags ==> !Contains(s, OpenTag(t))
  }

  /** The tags are names; text between blocks opens none of them, and a body does not contain its own close tag. */
  ghost predicate WellFormed(pieces: seq<Piece>, after: string, tags: seq<string>) {
    && (forall t :: t in tags ==> TagName(t))
    && NoOpenTag(after, tags)
    && (forall i :: 0 <= i < |pieces| ==>
          pieces[i].block.tag in tags && NoOpenTag(pieces[i].before, tags)
          && !Contains(pieces[i].block.body, CloseTag(pieces[i].block.tag)))
  }

  /** A close tag is the open tag of a name with a slash, and the same is true of it. */
  predicate NoBrackets(t: string) { '<' !in t && '>' !in t }

  lemma OpenTagAt(s: string, t: string, i: nat)
    requires NoBrackets(t) && OccursAt(s, OpenTag(t), i)
    ensures t == s[i + 1..i + 1 + |t|] && s[i + 1 + |t|] == '>' && forall k :: i < k <= i + |t| ==> s[k] != '>'
    ensures s[i] == '<' && forall k :: i < k < i + |OpenTag(t)| ==> s[k] != '<'
  {
    var open := OpenTag(t);
    assert forall k :: i <= k < i + |open| ==> s[k] == s[i..i + |open|][k - i] == open[k - i];
    assert forall k :: 0 < k <= |t| ==> open[k] == t[k - 1];
  }

  /** Two open tags that occur at the same place are the same. */
  lemma SameOpenTag(s: string, t: string, u: string, i: nat)
    requires NoBrackets(t) && NoBrackets(u) && OccursAt(s, OpenTag(t), i) && OccursAt(s, OpenTag(u), i)
    ensures t == u
  {
    OpenTagAt(s, t, i);
    OpenTagAt(s, u, i);
  }

  /** An open tag after text that opens none: nothing is opened before it or inside it. */
  lemma NothingEarlier(before: string, t: string, rest: string, u: string, i: nat)
    requires TagName(t) && TagName(u) && !Contains(before, OpenTag(u)) && t != u
    requires OccursAt(before + OpenTag(t) + rest, OpenTag(u), i)
    ensures i >= |before| + |OpenTag(t)|
  {
    var s := before + OpenTag(t) + rest;
    assert s == before + (OpenTag(t) + rest);
    forall j: nat | j < |before| ensures !OccursAt(s, OpenTag(u), j) {
      NotReachingInto(before, OpenTag(u), OpenTag(t) + rest, j);
    }
    assert OccursAt(s, OpenTag(t), |before|) by { assert s[|before|..|before| + |OpenTag(t)|] == OpenTag(t); }
    OpenTagAt(s, t, |before|);
    OpenTagAt(s, u, i);
    if i == |before| { SameOpenTag(s, t, u, i); }
  }

  /** The text of a document from its first piece on. */
  function From(piece: Piece, rest: string): string {
    piece.before + PrintBlock(piece.block) + rest
  }

  lemma FromParts(piece: Piece, rest: string)
    ensures var b := piece.block;
            && From(piece, rest) == piece.before + OpenTag(b.tag) + b.body + CloseTag(b.tag) + rest
            && From(piece, rest) == piece.before + OpenTag(b.tag) + (b.body + CloseTag(b.tag) + rest)
  {
  }

  ghost predicate PieceOk(piece: Piece) {
    && TagName(piece.block.tag) && !Contains(piece.before, OpenTag(piece.block.tag))
    && !Contains(piece.block.body, CloseTag(piece.block.tag))
  }

  function BodyStart(piece: Piece): nat { |piece.before| + |OpenTag(piece.block.tag)| }

  function Expected(piece: Piece): Found {
    Found(piece.block.tag, BodyStart(piece), BodyStart(piece) + |piece.block.body|)
  }

  lemma CandidateOf(piece: Piece, rest: string)
    requires PieceOk(piece)
    ensures Candidate(From(piece, rest), piece.block.tag) == Some(Expected(piece))
  {
    hide OpenTag, CloseTag, TagName, Contains, From;
    FirstElement(piece.before, piece.block.tag, piece.block.body, rest);
    FromParts(piece, rest);
  }

  lemma CandidateOther(piece: Piece, rest: string, tag: string)
    requires PieceOk(piece) && TagName(tag) && tag != piece.block.tag && !Contains(piece.before, OpenTag(tag))
    ensures var c := Candidate(From(piece, rest), tag); c.Some? ==> c.value.bodyStart > BodyStart(piece)
  {
    var b := piece.block;
    FromParts(piece, rest);
    var open := Find(From(piece, rest), OpenTag(tag));
    if open.Some? {
      NothingEarlier(piece.before, b.tag, b.body + CloseTag(b.tag) + rest, tag, open.value);
    }
  }

  /** Whatever other tags there are, the first block of a document is found first. */
  lemma {:induction false} FirstBlockFound(piece: Piece, rest: string, tags: seq<string>)
    requires forall t :: t in tags ==> TagName(t) && !Contains(piece.before, OpenTag(t))
    requires PieceOk(piece)
    ensures var next := NextBlock(From(piece, rest), tags);
            && (piece.block.tag in tags ==> next == Some(Expected(piece)))
            && (next.Some? ==> next.value == Expected(piece) || next.value.bodyStart > BodyStart(piece))
  {
    hide Candidate;
    if tags != [] {
      FirstBlockFound(piece, rest, tags[1..]);
      if tags[0] == piece.block.tag {
        CandidateOf(piece, rest);
      } else {
        CandidateOther(piece, rest, tags[0]);
      }
    }
  }

  lemma {:induction false} NoBlockFound(s: string, tags: seq<string>)
    requires NoOpenTag(s, tags)
    ensures NextBlock(s, tags).None?
  {
    if tags != [] { NoBlockFound(s, tags[1..]); }
  }

  function BlocksOf(pieces: seq<Piece>): seq<Block> {
    if pieces == [] then [] else [pieces[0].block] + BlocksOf(pieces[1..])
  }

  /** The body and the text after the block, cut out of the document. */
  lemma CutBlock(piece: Piece, rest: string)
    ensures var s, f := From(piece, rest), Expected(piece);
            && f.tag == piece.block.tag && f.bodyStart <= f.bodyEnd && f.bodyEnd + |CloseTag(f.tag)| <= |s|
            && s[f.bodyStart..f.bodyEnd] == piece.block.body && s[f.bodyEnd + |CloseTag(f.tag)|..] == rest
  {
    var pre := piece.before + OpenTag(piece.block.tag);
    FromParts(piece, rest);
    assert From(piece, rest) == pre + (piece.block.body + CloseTag(piece.block.tag) + rest);
  }

  /** The display loop finds exactly the blocks of a document, in order. */
  lemma {:induction false} ScanPrinted(pieces: seq<Piece>, after: string, tags: seq<string>)
    requires WellFormed(pieces, after, tags)
    ensures Scan(Print(pieces, after), tags) == BlocksOf(pieces)
    decreases |pieces|
  {
    hide NextBlock, CloseTag, OpenTag, Expected, BodyStart;
    if pieces == [] {
      NoBlockFound(after, tags);
    } else {
      var piece, rest := pieces[0], Print(pieces[1..], after);
      FirstBlockFound(piece, rest, tags);
      CutBlock(piece, rest);
      ScanPrinted(pieces[1..], after, tags);
    }
  }

  // ---- one printed notification ----

  datatype Field = Field(name: string, value: string)

  function PrintField(f: Field): string {
    "\n" + OpenTag(f.name) + XmlEscape(f.value) + CloseTag(f.name)
  }

  function PrintFields(fields: seq<Field>): string {
    if fields == [] then "\n" else PrintField(fields[0]) + PrintFields(fields[1..])
  }

  lemma CloseIsOpen(t: string)
    requires NoBrackets(t)
    ensures CloseTag(t) == OpenTag("/" + t) && NoBrackets("/" + t)
  {
  }

  /** The two brackets of a printed field that open a tag. */
  lemma FieldBrackets(f: Field, rest: string)
    requires TagName(f.name)
    ensures var s, m := PrintField(f) + rest, 1 + |OpenTag(f.name)| + |XmlEscape(f.value)|;
            && OccursAt(s, OpenTag(f.name), 1) && OccursAt(s, CloseTag(f.name), m)
            && forall i :: 0 <= i < |PrintField(f)| && s[i] == '<' ==> i == 1 || i == m
  {
    hide XmlEscape;
    EscapeHasNoBrackets(f.value);
    OnlyTwoBrackets(OpenTag(f.name), XmlEscape(f.value), CloseTag(f.name), rest);
  }

  lemma OnlyTwoBrackets(open: string, text: string, close: string, rest: string)
    requires open != "" && close != "" && '<' !in text
    requires forall i :: 0 < i < |open| ==> open[i] != '<'
    requires forall i :: 0 < i < |close| ==> close[i] != '<'
    ensures var s, m := "\n" + open + text + close + rest, 1 + |open| + |text|;
            && OccursAt(s, open, 1) && OccursAt(s, close, m)
            && forall i :: 0 <= i < m + |close| && s[i] == '<' ==> i == 1 || i == m
  {
    var front := "\n" + open + text;
    var s, n, m := front + close + rest, 1 + |open|, 1 + |open| + |text|;
    assert s[1..n] == open && s[m..m + |close|] == close;
    forall i | 0 <= i < m + |close| && s[i] == '<' ensures i == 1 || i == m {
      assert i < m ==> s[i] == front[i];
      assert m <= i ==> s[i] == close[i - m];
    }
  }

  /** The only tags that start in a printed field are its own. */
  lemma FieldTags(f: Field, x: string, rest: string, i: nat)
    requires TagName(f.name) && NoBrackets(x) && i < |PrintField(f)| && OccursAt(PrintField(f) + rest, OpenTag(x), i)
    ensures x == f.name || x == "/" + f.name
  {
    hide PrintField;
    var s := PrintField(f) + rest;
    FieldBrackets(f, rest);
    OpenTagAt(s, x, i);
    if i == 1 {
      SameOpenTag(s, x, f.name, i);
    } else {
      CloseIsOpen(f.name);
      SameOpenTag(s, x, "/" + f.name, i);
    }
  }

  lemma FieldOpensItself(f: Field, name: string, rest: string, i: nat)
    requires TagName(f.name) && TagName(name) && f.name != name && OccursAt(PrintField(f) + rest, OpenTag(name), i)
    ensures i >= |PrintField(f)|
  {
    if i < |PrintField(f)| { FieldTags(f, name, rest, i); }
  }

  /** A list of fields does not contain the close tag of another name. */
  lemma {:induction false} FieldsCloseThemselves(fields: seq<Field>, tag: string)
    requires TagName(tag) && forall i :: 0 <= i < |fields| ==> TagName(fields[i].name) && fields[i].name != tag
    ensures !Contains(PrintFields(fields), CloseTag(tag))
  {
    if fields == [] {
      NoBracketNoTag("\n", CloseTag(tag));
    } else {
      var f, rest := fields[0], PrintFields(fields[1..]);
      FieldsCloseThemselves(fields[1..], tag);
      CloseIsOpen(tag);
      forall i: nat ensures !OccursAt(PrintField(f) + rest, CloseTag(tag), i) {
        ClosesNotBefore(f, tag, rest, i);
      }
    }
  }

  lemma ClosesNotBefore(f: Field, tag: string, rest: string, i: nat)
    requires TagName(f.name) && TagName(tag) && f.name != tag && !Contains(rest, CloseTag(tag))
    ensures !OccursAt(PrintField(f) + rest, CloseTag(tag), i)
  {
    var s, n, close := PrintField(f) + rest, |PrintField(f)|, CloseTag(tag);
    CloseIsOpen(tag);
    assert ("/" + tag)[1..] == tag && ("/" + f.name)[1..] == f.name;
    if i >= n {
      if i + |close| <= |s| { assert s[i..i + |close|] == rest[i - n..i - n + |close|]; }
      assert !OccursAt(rest, close, i - n);
    } else if OccursAt(s, close, i) {
      FieldTags(f, "/" + tag, rest, i);
    }
  }

  /** Fields with other names do not open a tag of this name. */
  lemma {:induction false} FieldsOpenOthers(fields: seq<Field>, name: string, k: nat)
    requires TagName(name) && k <= |fields|
    requires forall i :: 0 <= i < k ==> TagName(fields[i].name) && fields[i].name != name
    requires k < |fields| ==> fields[k].name == name
    ensures ExtractXmlTag(PrintFields(fields), name) == if k < |fields| then Some(XmlEscape(fields[k].value)) else None
    decreases |fields|
  {
    var s := PrintFields(fields);
    if fields == [] {
      NoBracketNoTag("\n", OpenTag(name));
    } else if k == 0 {
      var rest := PrintFields(fields[1..]);
      NoBracketNoTag("\n", OpenTag(name));
      ExtractPrinted("\n", name, fields[0].value, rest);
      assert s == "\n" + OpenTag(name) + XmlEscape(fields[0].value) + CloseTag(name) + rest;
    } else {
      FieldsOpenOthers(fields[1..], name, k - 1);
      SkipField(fields[0], name, PrintFields(fields[1..]));
    }
  }

  lemma SkipFind(f: Field, name: string, rest: string)
    requires TagName(f.name) && TagName(name) && f.name != name
    ensures var r := Find(rest, OpenTag(name));
            Find(PrintField(f) + rest, OpenTag(name)) == if r.None? then None else Some(|PrintField(f)| + r.value)
  {
    hide PrintField, OpenTag, OccursAt, TagName;
    var n, s, open := |PrintField(f)|, PrintField(f) + rest, OpenTag(name);
    var r := Find(rest, open);
    forall i: nat ensures OccursAt(s, open, i) <==> i >= n && OccursAt(rest, open, i - n) {
      OpensBehind(f, name, rest, i);
    }
    if r.Some? {
      assert OccursAt(s, open, n + r.value);
      FindFirst(s, open, n + r.value);
    } else {
      assert forall i: nat :: !OccursAt(s, open, i);
    }
  }

  lemma OpensBehind(f: Field, name: string, rest: string, i: nat)
    requires TagName(f.name) && TagName(name) && f.name != name
    ensures var n := |PrintField(f)|;
            OccursAt(PrintField(f) + rest, OpenTag(name), i) <==> i >= n && OccursAt(rest, OpenTag(name), i - n)
  {
    hide PrintField, OpenTag, TagName;
    var n, s, open := |PrintField(f)|, PrintField(f) + rest, OpenTag(name);
    if OccursAt(s, open, i) { FieldOpensItself(f, name, rest, i); }
    if i >= n && i + |open| <= |s| { assert s[i..i + |open|] == rest[i - n..i - n + |open|]; }
  }

  /** A field of another name in front does not change what is extracted. */
  lemma SkipField(f: Field, name: string, rest: string)
    requires TagName(f.name) && TagName(name) && f.name != name
    ensures ExtractXmlTag(PrintField(f) + rest, name) == ExtractXmlTag(rest, name)
  {
    hide PrintField, OpenTag, CloseTag, TagName;
    SkipFind(f, name, rest);
    var n, s, open := |PrintField(f)|, PrintField(f) + rest, OpenTag(name);
    var r := Find(rest, open);
    if r.Some? {
      var start := r.value + |open|;
      assert s[n + start..] == rest[start..];
      assert forall k :: start <= k <= |rest| ==> s[n + start..n + k] == rest[start..k];
    }
  }

  const TAGS: seq<string> := ["background-task-completed", "background-task-waiting-for-input"]

  /** The fields of a completion notification; the description is printed only if there is one. */
  function CompletionFields(id: string, command: string, description: Option<string>, status: string, output: string)
    : seq<Field>
  {
    [Field("task-id", id), Field("command", command)]
    + (if description.Some? then [Field("description", description.value)] else [])
    + [Field("status", status), Field("output", output)]
  }

  function CompletionBlock(id: string, command: string, description: Option<string>, status: string, output: string)
    : Block
  {
    Block(TAGS[0], PrintFields(CompletionFields(id, command, description, status, output)))
  }

  function ReadField(body: string, name: string): Option<string> {
    match ExtractXmlTag(body, name)
    case None => None
    case Some(v) => Some(XmlUnescape(v))
  }

  lemma FieldRead(fields: seq<Field>, name: string, k: nat)
    requires TagName(name) && k <= |fields|
    requires forall i :: 0 <= i < k ==> TagName(fields[i].name) && fields[i].name != name
    requires k < |fields| ==> fields[k].name == name
    ensures ReadField(PrintFields(fields), name) == if k < |fields| then Some(fields[k].value) else None
  {
    FieldsOpenOthers(fields, name, k);
    if k < |fields| { UnescapeEscape(fields[k].value); }
  }

  lemma FieldNames()
    ensures TagName("task-id") && TagName("command") && TagName("description") && TagName("status") && TagName("output")
  {
  }

  lemma BlockTags()
    ensures TagName(TAGS[0]) && TagName(TAGS[1]) && |TAGS[0]| == 25
  {
  }

  lemma FieldNamesAreShort(c: Completion, i: nat)
    requires i < |c.Fields()|
    ensures TagName(c.Fields()[i].name) && |c.Fields()[i].name| <= 11
  {
    hide TagName;
    FieldNames();
  }

  /** Every field of a completion notification is read back as it was, and the description if there is one. */
  lemma CompletionReadBack(id: string, command: string, description: Option<string>, status: string, output: string)
    ensures var body := CompletionBlock(id, command, description, status, output).body;
            && ReadField(body, "task-id") == Some(id)
            && ReadField(body, "command") == Some(command)
            && ReadField(body, "description") == description
            && ReadField(body, "status") == Some(status)
            && ReadField(body, "output") == Some(output)
  {
    hide PrintFields, ReadField, TagName;
    FieldNames();
    var fields := CompletionFields(id, command, description, status, output);
    var n := |fields|;
    assert n == if description.Some? then 5 else 4;
    assert fields[0].name == "task-id" && fields[1].name == "command";
    assert fields[n - 2] == Field("status", status) && fields[n - 1] == Field("output", output);
    assert description.Some? ==> fields[2] == Field("description", description.value);
    FieldRead(fields, "task-id", 0);
    FieldRead(fields, "command", 1);
    FieldRead(fields, "description", if description.Some? then 2 else n);
    FieldRead(fields, "status", n - 2);
    FieldRead(fields, "output", n - 1);
  }

  datatype Completion = Completion(id: string, command: string, description: Option<string>, status: string,
                                   output: string)
  {
    function Fields(): seq<Field> { CompletionFields(id, command, description, status, output) }

    function ToBlock(): Block { CompletionBlock(id, command, description, status, output) }
  }

  /** Notifications one after the other, each on a line of its own. */
  function Pieces(cs: seq<Completion>): (r: seq<Piece>)
    ensures |r| == |cs| && forall i :: 0 <= i < |cs| ==> r[i] == Piece("\n", cs[i].ToBlock())
  {
    if cs == [] then [] else [Piece("\n", cs[0].ToBlock())] + Pieces(cs[1..])
  }

  lemma CompletionIsPiece(c: Completion)
    ensures c.ToBlock().tag == TAGS[0] && !Contains(c.ToBlock().body, CloseTag(TAGS[0]))
  {
    hide PrintFields, TagName, CompletionFields;
    BlockTags();
    forall i | 0 <= i < |c.Fields()| ensures TagName(c.Fields()[i].name) && c.Fields()[i].name != TAGS[0] {
      FieldNamesAreShort(c, i);
    }
    FieldsCloseThemselves(c.Fields(), TAGS[0]);
  }

  /** Any number of completion notifications in one message are all found, in order, whatever their fields contain. */
  lemma CompletionsFound(cs: seq<Completion>)
    ensures Scan(Print(Pieces(cs), "\n"), TAGS) == BlocksOf(Pieces(cs))
  {
    hide PrintFields, TagName, Scan, Print, BlocksOf;
    BlockTags();
    forall t | t in TAGS ensures TagName(t) && !Contains("\n", OpenTag(t)) {
      NoBracketNoTag("\n", OpenTag(t));
    }
    forall i | 0 <= i < |cs|
      ensures Pieces(cs)[i].block.tag in TAGS && !Contains(Pieces(cs)[i].block.body, CloseTag(Pieces(cs)[i].block.tag))
    {
      CompletionIsPiece(cs[i]);
    }
    ScanPrinted(Pieces(cs), "\n", TAGS);
  }
}
