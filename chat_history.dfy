/** The chat front end's history format (a list of `{"role", "content"}`
    dicts) and the text extraction that both `predict` functions apply to
    each entry's content. */
module ChatHistory {
  import opened Optional

  /** One element of a list-valued content, read with `.get("type")` and
      `.get("text", "")`; `None` stands for a missing key. */
  datatype Part = Part(kind: Option<string>, text: Option<string>)

  /** The value found under an entry's "content" key. */
  datatype Content =
    | Str(s: string)           // a plain string: `str` is the identity
    | Parts(parts: seq<Part>)  // a list of part dicts
    | Missing                  // no "content" key (or `None`): `str(None)` is "None"
    | Other(repr: string)      // any other value, given by its `str`

  /** One history entry; `role` is `msg.get("role")`. */
  datatype Entry = Entry(role: Option<string>, content: Content)

  const UserRole: string := "user"
  const AssistantRole: string := "assistant"

  /** Entries that either `predict` turns into conversation: user or assistant. */
  predicate IsKept(e: Entry) {
    e.role == Some(UserRole) || e.role == Some(AssistantRole)
  }

  /** Number of user/assistant entries. */
  function CountKept(h: seq<Entry>): (n: nat)
    ensures n <= |h|
  {
    if h == [] then 0 else CountKept(h[..|h| - 1]) + (if IsKept(h[|h| - 1]) then 1 else 0)
  }

  /** The positions of the user/assistant entries of `h`, in increasing order. */
  function KeptIndices(h: seq<Entry>): (idx: seq<nat>)
    ensures |idx| == CountKept(h)
    ensures forall k :: 0 <= k < |idx| ==> idx[k] < |h| && IsKept(h[idx[k]])
    ensures forall k, l :: 0 <= k < l < |idx| ==> idx[k] < idx[l]
    ensures forall i :: 0 <= i < |h| && IsKept(h[i]) ==> i in idx
  {
    if h == [] then []
    else KeptIndices(h[..|h| - 1]) + (if IsKept(h[|h| - 1]) then [|h| - 1] else [])
  }

  predicate IsTextPart(p: Part) {
    p.kind == Some("text")
  }

  /** `c.get("text", "")`. */
  function PartText(p: Part): string {
    if p.text.Some? then p.text.value else ""
  }

  /** `[c.get("text", "") for c in content if c.get("type") == "text"]`. */
  function TextsOf(ps: seq<Part>): (ts: seq<string>)
    ensures |ts| <= |ps|
  {
    if ps == [] then []
    else (if IsTextPart(ps[0]) then [PartText(ps[0])] else []) + TextsOf(ps[1..])
  }

  /** `" ".join(xs)`. */
  function Join(xs: seq<string>): string {
    if xs == [] then ""
    else if |xs| == 1 then xs[0]
    else xs[0] + " " + Join(xs[1..])
  }

  /** The text of one history entry's content: the space-joined texts of the
      text parts for a list, `str(content)` otherwise. */
  function ExtractText(c: Content): string {
    match c
    case Str(s) => s
    case Parts(ps) => Join(TextsOf(ps))
    case Missing => "None"
    case Other(r) => r
  }

  /** Total number of characters in `xs`. */
  function TotalLength(xs: seq<string>): nat {
    if xs == [] then 0 else |xs[0]| + TotalLength(xs[1..])
  }

  /** `s.split(" ")`: the pieces between single spaces. */
  function Split(s: string): (pieces: seq<string>)
    ensures |pieces| >= 1
  {
    if s == [] then [""]
    else if s[0] == ' ' then [""] + Split(s[1..])
    else
      var rest := Split(s[1..]);
      [[s[0]] + rest[0]] + rest[1..]
  }

  /** The text parts are selected part by part: the selection distributes
      over concatenation of part lists, so the extracted texts of `a + b` are
      those of `a` followed by those of `b` (with the single-part case given by
      the definition, this fixes the order and the contents). */
  lemma {:induction false} TextsOfAppend(a: seq<Part>, b: seq<Part>)
    ensures TextsOf(a + b) == TextsOf(a) + TextsOf(b)
  {
    if a == [] {
      assert a + b == b;
    } else {
      var head := if IsTextPart(a[0]) then [PartText(a[0])] else [];
      assert (a + b)[0] == a[0];
      assert (a + b)[1..] == a[1..] + b;
      assert TextsOf(a + b) == head + TextsOf(a[1..] + b);
      TextsOfAppend(a[1..], b);
      assert TextsOf(a) == head + TextsOf(a[1..]);
    }
  }

  /** Joining with single spaces adds exactly one character between
      neighbouring texts. */
  lemma {:induction false} JoinLength(xs: seq<string>)
    requires |xs| >= 1
    ensures |Join(xs)| == TotalLength(xs) + |xs| - 1
  {
    if |xs| > 1 {
      JoinLength(xs[1..]);
    }
  }

  lemma {:induction false} SplitNoSpace(x: string)
    requires ' ' !in x
    ensures Split(x) == [x]
  {
    if x != [] {
      assert x[0] != ' ';
      SplitNoSpace(x[1..]);
      assert [x[0]] + x[1..] == x;
    }
  }

  lemma {:induction false} SplitAfterPiece(x: string, rest: string)
    requires ' ' !in x
    ensures Split(x + " " + rest) == [x] + Split(rest)
  {
    if x == [] {
      assert x + " " + rest == [' '] + rest;
      assert (x + " " + rest)[1..] == rest;
    } else {
      assert (x + " " + rest)[1..] == x[1..] + " " + rest;
      SplitAfterPiece(x[1..], rest);
      assert [x[0]] + x[1..] == x;
    }
  }

  /** Round trip: when no text contains a space, splitting the joined text on
      spaces gives back every text, in order (so the join loses nothing). */
  lemma {:induction false} SplitJoin(xs: seq<string>)
    requires |xs| >= 1
    requires forall i :: 0 <= i < |xs| ==> ' ' !in xs[i]
    ensures Split(Join(xs)) == xs
  {
    if |xs| == 1 {
      SplitNoSpace(xs[0]);
    } else {
      SplitJoin(xs[1..]);
      SplitAfterPiece(xs[0], Join(xs[1..]));
    }
  }

  /** For list content with at least one text part and no spaces inside the
      texts, the extracted text splits back into exactly the texts of the
      text parts, in order. */
  lemma ExtractTextPartsRoundTrip(ps: seq<Part>)
    requires TextsOf(ps) != []
    requires forall i :: 0 <= i < |TextsOf(ps)| ==> ' ' !in TextsOf(ps)[i]
    ensures Split(ExtractText(Parts(ps))) == TextsOf(ps)
  {
    SplitJoin(TextsOf(ps));
  }
}
