/**
 * The `filtered` list of the media screen: an order-preserving filter of the
 * loaded records by category (`filter`) and free-text search (`query`).
 */
module Search {
  import opened Wrappers
  import opened Text
  import opened Activity

  /** The category that disables category filtering. */
  const All: string := "all"

  /** The category buttons of the filter bar, in display order. */
  const Filters: seq<string> := ["all", "email", "whatsapp", "meeting"]

  /** `filter === 'all' || item.type === filter`; an absent `type` matches no category but "all". */
  predicate CategoryMatch(r: Record, filter: string): (b: bool)
    ensures filter != All ==> (b <==> r.kind == Some(filter))
  {
    filter == All || r.kind == Some(filter)
  }

  /**
   * On a tagged record, the category test passes exactly under "all" and
   * under the record's own source tag, whatever `type` the payload carried.
   */
  lemma TaggedCategoryMatch(d: Record, s: Source, filter: string)
    ensures CategoryMatch(Tag(d, s), filter) <==> filter == All || filter == s.Name()
  {
  }

  /**
   * `field?.toLowerCase().includes(query.toLowerCase())`: optional chaining
   * makes an absent field yield `undefined`, which is falsy, so `includes` is
   * reached only when the field is present.
   */
  predicate FieldMatches(field: Option<string>, query: string): (b: bool)
    ensures b ==> field.Some? && |query| <= |field.value|
    ensures field.Some? && query == [] ==> b
  {
    field.Some? && Contains(LowerStr(field.value), LowerStr(query))
  }

  /** The query matches the `name` or, failing that, the `details` of the record. */
  predicate SearchMatch(r: Record, query: string): (b: bool)
    ensures b ==> r.name.Some? || r.details.Some?
  {
    FieldMatches(r.name, query) || FieldMatches(r.details, query)
  }

  /**
   * The callback handed to `data.filter`: a kept record has the selected
   * `type` (unless the category is "all") and a present `name` or `details`.
   */
  predicate Keep(r: Record, filter: string, query: string): (b: bool)
    ensures b && filter != All ==> r.kind == Some(filter)
    ensures b ==> r.name.Some? || r.details.Some?
  {
    CategoryMatch(r, filter) && SearchMatch(r, query)
  }

  /** `a` is a subsequence of `b`: `a` is `b` with some elements left out, in the same order. */
  predicate IsSubseq<T(==)>(a: seq<T>, b: seq<T>)
    decreases |b|
  {
    a == [] || (b != [] && ((a[0] == b[0] && IsSubseq(a[1..], b[1..])) || IsSubseq(a, b[1..])))
  }

  /**
   * `data.filter(Keep)`: the result is a subsequence of `data` (nothing is
   * reordered or invented), and it holds each kept record exactly as often as
   * `data` does and no other record.
   */
  function Visible(data: seq<Record>, filter: string, query: string): (r: seq<Record>)
    ensures IsSubseq(r, data)
    ensures forall x :: multiset(r)[x] == if Keep(x, filter, query) then multiset(data)[x] else 0
  {
    if data == [] then []
    else
      assert data == [data[0]] + data[1..];
      var rest := Visible(data[1..], filter, query);
      if Keep(data[0], filter, query) then [data[0]] + rest else rest
  }

  /** A record is shown iff it is loaded and passes both the category and the search test. */
  lemma VisibleMembership(data: seq<Record>, filter: string, query: string, x: Record)
    ensures x in Visible(data, filter, query) <==> x in data && Keep(x, filter, query)
  {
    var r := Visible(data, filter, query);
    assert x in r <==> multiset(r)[x] > 0;
    assert x in data <==> multiset(data)[x] > 0;
  }

  /**
   * Under a category other than "all", every shown record carries exactly
   * that `type`, and every loaded record of that `type` that matches the
   * query is shown.
   */
  lemma CategoryFilters(data: seq<Record>, filter: string, query: string)
    requires filter != All
    ensures forall x :: x in Visible(data, filter, query) ==> x.kind == Some(filter)
    ensures forall x :: x in data && x.kind == Some(filter) && SearchMatch(x, query) ==> x in Visible(data, filter, query)
  {
    forall x | x in Visible(data, filter, query)
      ensures x.kind == Some(filter)
    {
      VisibleMembership(data, filter, query, x);
    }
    forall x | x in data && x.kind == Some(filter) && SearchMatch(x, query)
      ensures x in Visible(data, filter, query)
    {
      VisibleMembership(data, filter, query, x);
    }
  }

  /** Under "all", the category test passes everything and only the search applies. */
  lemma AllCategoryIsSearchOnly(data: seq<Record>, query: string)
    ensures forall x :: x in Visible(data, All, query) <==> x in data && SearchMatch(x, query)
  {
    forall x
      ensures x in Visible(data, All, query) <==> x in data && SearchMatch(x, query)
    {
      VisibleMembership(data, All, query, x);
    }
  }

  /** A field matches iff it is present and its lower-cased text contains the lower-cased query at some position. */
  lemma FieldMatchesIffOccurs(field: Option<string>, query: string)
    ensures FieldMatches(field, query) ==>
      field.Some? && exists i: nat :: OccursAt(LowerStr(field.value), LowerStr(query), i)
    ensures field.Some? && (exists i: nat :: OccursAt(LowerStr(field.value), LowerStr(query), i)) ==>
      FieldMatches(field, query)
  {
    if field.Some? {
      ContainsIffOccurs(LowerStr(field.value), LowerStr(query));
    }
  }

  /** Queries that lower-case to the same text show the same records. */
  lemma {:induction false} VisibleCaseInsensitive(data: seq<Record>, filter: string, q1: string, q2: string)
    requires LowerStr(q1) == LowerStr(q2)
    ensures Visible(data, filter, q1) == Visible(data, filter, q2)
  {
    if data != [] {
      VisibleCaseInsensitive(data[1..], filter, q1, q2);
    }
  }

  /** Searching for a query and for its lower-cased form gives the same result. */
  lemma VisibleLowerQuery(data: seq<Record>, filter: string, query: string)
    ensures Visible(data, filter, LowerStr(query)) == Visible(data, filter, query)
  {
    LowerStrIdempotent(query);
    VisibleCaseInsensitive(data, filter, LowerStr(query), query);
  }

  /**
   * The empty query matches a record iff it has a `name` or a `details`:
   * `includes('')` holds, but is only reached for a present field.
   */
  lemma EmptyQueryKeep(r: Record, filter: string)
    ensures Keep(r, filter, "") <==> CategoryMatch(r, filter) && (r.name.Some? || r.details.Some?)
  {
  }

  /** A record with neither `name` nor `details` is never shown, whatever the category and query. */
  lemma FieldlessNeverVisible(data: seq<Record>, filter: string, query: string, x: Record)
    requires x.name.None? && x.details.None?
    ensures x !in Visible(data, filter, query)
  {
    VisibleMembership(data, filter, query, x);
  }

  /**
   * With category "all" and the empty query, the records shown are exactly
   * the loaded ones, in order, provided each has a `name` or a `details`.
   */
  lemma {:induction false} EmptyQueryShowsAll(data: seq<Record>)
    requires forall i :: 0 <= i < |data| ==> data[i].name.Some? || data[i].details.Some?
    ensures Visible(data, All, "") == data
  {
    if data != [] {
      EmptyQueryKeep(data[0], All);
      EmptyQueryShowsAll(data[1..]);
    }
  }

  /** One step of the filter: the head is kept or dropped, then the tail is filtered. */
  lemma VisibleUnfold(data: seq<Record>, filter: string, query: string)
    requires data != []
    ensures Visible(data, filter, query)
         == (if Keep(data[0], filter, query) then [data[0]] else []) + Visible(data[1..], filter, query)
  {
  }

  /** `VisibleUnfold` for a list written as a head and a tail. */
  lemma VisibleCons(x: Record, tail: seq<Record>, filter: string, query: string)
    ensures Visible([x] + tail, filter, query)
         == (if Keep(x, filter, query) then [x] else []) + Visible(tail, filter, query)
  {
    VisibleUnfold([x] + tail, filter, query);
    assert ([x] + tail)[1..] == tail;
  }

  /** Filtering commutes with concatenation. */
  lemma {:induction false} VisibleConcat(a: seq<Record>, b: seq<Record>, filter: string, query: string)
    ensures Visible(a + b, filter, query) == Visible(a, filter, query) + Visible(b, filter, query)
  {
    if a == [] {
      assert a + b == b;
    } else {
      var t := a[1..];
      var h := if Keep(a[0], filter, query) then [a[0]] else [];
      calc {
        Visible(a + b, filter, query);
        { assert (a + b)[0] == a[0]; assert (a + b)[1..] == t + b; VisibleUnfold(a + b, filter, query); }
        h + Visible(t + b, filter, query);
        { VisibleConcat(t, b, filter, query); }
        h + (Visible(t, filter, query) + Visible(b, filter, query));
        (h + Visible(t, filter, query)) + Visible(b, filter, query);
        { VisibleUnfold(a, filter, query); }
        Visible(a, filter, query) + Visible(b, filter, query);
      }
    }
  }

  /** Selecting a source's category within that source's tagged list is the same as selecting "all". */
  lemma {:induction false} TaggedOwnCategory(xs: seq<Record>, s: Source, query: string)
    ensures Visible(TagAll(xs, s), s.Name(), query) == Visible(TagAll(xs, s), All, query)
  {
    if xs != [] {
      var y, rest := Tag(xs[0], s), TagAll(xs[1..], s);
      assert TagAll(xs, s) == [y] + rest;
      TaggedCategoryMatch(xs[0], s, s.Name());
      TaggedCategoryMatch(xs[0], s, All);
      VisibleCons(y, rest, s.Name(), query);
      VisibleCons(y, rest, All, query);
      TaggedOwnCategory(xs[1..], s, query);
    }
  }

  /** Selecting another source's category within a source's tagged list shows nothing. */
  lemma {:induction false} TaggedOtherCategory(xs: seq<Record>, s: Source, t: Source, query: string)
    requires s != t
    ensures Visible(TagAll(xs, s), t.Name(), query) == []
  {
    if xs != [] {
      var y, rest := Tag(xs[0], s), TagAll(xs[1..], s);
      assert TagAll(xs, s) == [y] + rest;
      NamesDistinct(s, t);
      TaggedCategoryMatch(xs[0], s, t.Name());
      VisibleCons(y, rest, t.Name(), query);
      TaggedOtherCategory(xs[1..], s, t, query);
    }
  }

  /**
   * On the merged list, selecting a source's category shows exactly the
   * matching records of that source, in that source's order.
   */
  lemma MergedCategory(email: seq<Record>, whatsapp: seq<Record>, meeting: seq<Record>, s: Source, query: string)
    ensures Visible(Merge(email, whatsapp, meeting), s.Name(), query)
         == Visible(TagAll(Pick(s, email, whatsapp, meeting), s), All, query)
  {
    var a, b, c := TagAll(email, Email), TagAll(whatsapp, Whatsapp), TagAll(meeting, Meeting);
    VisibleConcat(a + b, c, s.Name(), query);
    VisibleConcat(a, b, s.Name(), query);
    match s
    case Email =>
      TaggedOwnCategory(email, Email, query);
      TaggedOtherCategory(whatsapp, Whatsapp, Email, query);
      TaggedOtherCategory(meeting, Meeting, Email, query);
    case Whatsapp =>
      TaggedOtherCategory(email, Email, Whatsapp, query);
      TaggedOwnCategory(whatsapp, Whatsapp, query);
      TaggedOtherCategory(meeting, Meeting, Whatsapp, query);
    case Meeting =>
      TaggedOtherCategory(email, Email, Meeting, query);
      TaggedOtherCategory(whatsapp, Whatsapp, Meeting, query);
      TaggedOwnCategory(meeting, Meeting, query);
  }

  /** Every filter button is "all" or the tag of exactly one source, and every source has a button. */
  lemma FiltersAreCategories()
    ensures forall f :: f in Filters ==> f == All || exists s: Source :: f == s.Name()
    ensures forall s: Source :: s.Name() in Filters
  {
    assert Filters[1] == Email.Name();
    assert Filters[2] == Whatsapp.Name();
    assert Filters[3] == Meeting.Name();
  }
}

/** A worked example: one email from Bob, no whatsapp messages, one meeting with Eve. */
module Scenario {
  import opened Wrappers
  import opened Text
  import opened Activity
  import opened Search

  const Bob := Record(None, Some("Bob"), Some("Hi"), map["timestamp" := Num(1717000000000.0)])
  const Eve := Record(None, Some("Eve"), Some("Sync"), map["timestamp" := Num(1717003600000.0)])

  /** The merge puts Bob, tagged email, before Eve, tagged meeting. */
  lemma MergeBobAndEve()
    ensures Merge([Bob], [], [Eve]) == [Tag(Bob, Email), Tag(Eve, Meeting)]
  {
    assert TagAll([Bob], Email) == [Tag(Bob, Email)];
    assert TagAll([Eve], Meeting) == [Tag(Eve, Meeting)];
  }

  /** The meeting category with the empty query shows only Eve. */
  lemma MeetingShowsEve()
    ensures Visible([Tag(Bob, Email), Tag(Eve, Meeting)], "meeting", "") == [Tag(Eve, Meeting)]
  {
    var b, e := Tag(Bob, Email), Tag(Eve, Meeting);
    assert !Keep(b, "meeting", "");
    EmptyQueryKeep(e, "meeting");
    assert [b, e][1..] == [e];
    assert Visible([e], "meeting", "") == [e];
  }

  /** Lower-casing the example texts. */
  lemma LowerNames()
    ensures LowerStr("Bob") == "bob" && LowerStr("Hi") == "hi"
    ensures LowerStr("Eve") == "eve" && LowerStr("Sync") == "sync"
    ensures LowerStr("bo") == "bo"
  {
    assert Lower('B') == 'b' && Lower('E') == 'e' && Lower('S') == 's' && Lower('H') == 'h';
  }

  /** Under "all", the query "bo" shows only Bob. */
  lemma QueryShowsBob()
    ensures Visible([Tag(Bob, Email), Tag(Eve, Meeting)], All, "bo") == [Tag(Bob, Email)]
  {
    var b, e := Tag(Bob, Email), Tag(Eve, Meeting);
    LowerNames();
    assert "bo" <= "bob";
    assert Keep(b, All, "bo");
    assert !Contains("eve", "bo");
    assert !Contains("sync", "bo");
    assert !Keep(e, All, "bo");
    assert [b, e][1..] == [e];
  }
}
