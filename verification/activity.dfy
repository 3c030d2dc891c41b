/**
 * Activity records and the merge-and-tag step of `fetchAllData`: each
 * source's list is mapped to records carrying `type: <source>`, and the three
 * lists are concatenated email, then whatsapp, then meeting.
 */
module Activity {
  import opened Wrappers

  /** The three backends, in the order their lists are merged. */
  datatype Source = Email | Whatsapp | Meeting {

    /** The tag string written into the `type` field. */
    function Name(): (n: string)
      ensures n in ["email", "whatsapp", "meeting"]
    {
      match this
      case Email => "email"
      case Whatsapp => "whatsapp"
      case Meeting => "meeting"
    }
  }

  /**
   * A JSON value of a payload field the screen does not interpret. Numbers
   * are kept as exact reals: they are only carried, never computed with.
   */
  datatype Value =
    | Null
    | Bool(b: bool)
    | Num(n: real)
    | Str(s: string)
    | Arr(items: seq<Value>)
    | Obj(fields: map<string, Value>)

  /**
   * One record as the screen sees it. `kind` is the JavaScript `type` field
   * (absent in a raw payload unless the backend sent one); `name` and
   * `details` are the two searched fields; `rest` holds every other field of
   * the payload (the timestamp and anything source-specific), carried along
   * untouched; it never holds the keys "type", "name" or "details", which
   * have their own components. A JSON `null` in `name` or `details` is
   * `None`: `?.` stops at `null` exactly as at an absent field.
   */
  datatype Record = Record(
    kind: Option<string>,
    name: Option<string>,
    details: Option<string>,
    rest: map<string, Value>)

  /** The record without its `type` field: everything tagging must preserve. */
  function Strip(r: Record): (p: Record)
    ensures p.kind.None? && p.name == r.name && p.details == r.details && p.rest == r.rest
  {
    r.(kind := None)
  }

  /** `({ ...d, type: s })`: the tag is written last, so it wins over any `type` in `d`. */
  function Tag(d: Record, s: Source): (r: Record)
    ensures r.kind == Some(s.Name())
    ensures Strip(r) == Strip(d)
  {
    d.(kind := Some(s.Name()))
  }

  /** `list.map((d) => ({ ...d, type: s }))`. */
  function TagAll(xs: seq<Record>, s: Source): (r: seq<Record>)
    ensures |r| == |xs|
    ensures forall i :: 0 <= i < |r| ==> r[i].kind == Some(s.Name()) && Strip(r[i]) == Strip(xs[i])
  {
    if xs == [] then [] else [Tag(xs[0], s)] + TagAll(xs[1..], s)
  }

  /** The list of `type`-free payloads of a record list. */
  function StripAll(xs: seq<Record>): (r: seq<Record>)
    ensures |r| == |xs|
    ensures forall i :: 0 <= i < |r| ==> r[i] == Strip(xs[i])
  {
    if xs == [] then [] else [Strip(xs[0])] + StripAll(xs[1..])
  }

  /** The source list that `s` contributes to a merge. */
  function Pick(s: Source, email: seq<Record>, whatsapp: seq<Record>, meeting: seq<Record>): (xs: seq<Record>) {
    match s
    case Email => email
    case Whatsapp => whatsapp
    case Meeting => meeting
  }

  /**
   * `allData`: the three tagged lists, email first, then whatsapp, then
   * meeting. Nothing is dropped or deduplicated, and every record carries
   * one of the three source tags.
   */
  function Merge(email: seq<Record>, whatsapp: seq<Record>, meeting: seq<Record>): (r: seq<Record>)
    ensures |r| == |email| + |whatsapp| + |meeting|
    ensures forall i :: 0 <= i < |r| ==> r[i].kind.Some? && r[i].kind.value in ["email", "whatsapp", "meeting"]
  {
    TagAll(email, Email) + TagAll(whatsapp, Whatsapp) + TagAll(meeting, Meeting)
  }

  /** Different sources write different tags. */
  lemma NamesDistinct(s: Source, t: Source)
    ensures s.Name() == t.Name() <==> s == t
  {
    assert |Email.Name()| == 5 && |Whatsapp.Name()| == 8 && |Meeting.Name()| == 7;
  }

  /** Stripping the tags of a tagged list gives back the stripped payloads. */
  lemma {:induction false} StripTagAll(xs: seq<Record>, s: Source)
    ensures StripAll(TagAll(xs, s)) == StripAll(xs)
  {
    if xs != [] {
      StripTagAll(xs[1..], s);
      assert TagAll(xs, s)[1..] == TagAll(xs[1..], s);
    }
  }

  lemma {:induction false} StripAllConcat(a: seq<Record>, b: seq<Record>)
    ensures StripAll(a + b) == StripAll(a) + StripAll(b)
  {
    if a == [] {
      assert a + b == b;
    } else {
      assert (a + b)[1..] == a[1..] + b;
      StripAllConcat(a[1..], b);
    }
  }

  /**
   * The merged list holds every record of every source exactly once, in
   * source order: it splits into the tagged email, whatsapp and meeting
   * lists, in that order, with nothing added, dropped or reordered.
   */
  lemma MergeLayout(email: seq<Record>, whatsapp: seq<Record>, meeting: seq<Record>)
    ensures var r := Merge(email, whatsapp, meeting);
      && |r| == |email| + |whatsapp| + |meeting|
      && r[..|email|] == TagAll(email, Email)
      && r[|email|..|email| + |whatsapp|] == TagAll(whatsapp, Whatsapp)
      && r[|email| + |whatsapp|..] == TagAll(meeting, Meeting)
  {
    var a, b, c := TagAll(email, Email), TagAll(whatsapp, Whatsapp), TagAll(meeting, Meeting);
    assert (a + b + c)[..|a|] == a;
    assert (a + b + c)[|a|..|a| + |b|] == b;
    assert (a + b + c)[|a| + |b|..] == c;
  }

  /**
   * Position by position: record `i` of the merge comes from the source
   * whose block `i` falls in, carries that source's tag, and is otherwise the
   * payload at the matching position of that source's list.
   */
  lemma MergeAt(email: seq<Record>, whatsapp: seq<Record>, meeting: seq<Record>, i: nat)
    requires i < |email| + |whatsapp| + |meeting|
    ensures var r := Merge(email, whatsapp, meeting);
      && |r| == |email| + |whatsapp| + |meeting|
      && (i < |email| ==> r[i] == Tag(email[i], Email))
      && (|email| <= i < |email| + |whatsapp| ==> r[i] == Tag(whatsapp[i - |email|], Whatsapp))
      && (|email| + |whatsapp| <= i ==> r[i] == Tag(meeting[i - |email| - |whatsapp|], Meeting))
  {
  }

  /** Apart from the `type` tag, the merge is the plain concatenation of the payloads. */
  lemma MergePreservesPayloads(email: seq<Record>, whatsapp: seq<Record>, meeting: seq<Record>)
    ensures StripAll(Merge(email, whatsapp, meeting)) == StripAll(email) + StripAll(whatsapp) + StripAll(meeting)
  {
    var a, b, c := TagAll(email, Email), TagAll(whatsapp, Whatsapp), TagAll(meeting, Meeting);
    StripAllConcat(a + b, c);
    StripAllConcat(a, b);
    StripTagAll(email, Email);
    StripTagAll(whatsapp, Whatsapp);
    StripTagAll(meeting, Meeting);
  }
}
