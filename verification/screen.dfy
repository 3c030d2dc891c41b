/**
 * The state of the media screen and the load run `fetchAllData` that the
 * screen starts once, when it mounts. The three HTTP requests are inputs:
 * each is the outcome its request settled with.
 */
module Screen {
  import opened Wrappers
  import opened Activity
  import opened Search

  /** How one source request settled: the `data` array of the response, or a rejection. */
  datatype Response = Success(records: seq<Record>) | Failure

  /**
   * `Promise.all` over the three requests followed by the merge: the merged
   * list when all three succeed, nothing when any one of them fails.
   */
  function Settle(email: Response, whatsapp: Response, meeting: Response): (r: Option<seq<Record>>)
    ensures r.Some? <==> email.Success? && whatsapp.Success? && meeting.Success?
    ensures r.Some? ==> |r.value| == |email.records| + |whatsapp.records| + |meeting.records|
  {
    if email.Success? && whatsapp.Success? && meeting.Success? then
      Some(Merge(email.records, whatsapp.records, meeting.records))
    else
      None
  }

  /**
   * All or nothing: the run produces a list iff every source succeeded, and
   * then that list holds all records of all three sources; a single failure
   * leaves no list at all, so the sources that succeeded surface nothing.
   */
  lemma SettleAllOrNothing(email: Response, whatsapp: Response, meeting: Response)
    ensures Settle(email, whatsapp, meeting).Some? <==> email.Success? && whatsapp.Success? && meeting.Success?
    ensures Settle(email, whatsapp, meeting).Some? ==>
      var r := Settle(email, whatsapp, meeting).value;
      && |r| == |email.records| + |whatsapp.records| + |meeting.records|
      && StripAll(r) == StripAll(email.records) + StripAll(whatsapp.records) + StripAll(meeting.records)
  {
    if Settle(email, whatsapp, meeting).Some? {
      MergePreservesPayloads(email.records, whatsapp.records, meeting.records);
    }
  }

  /**
   * The screen's state cells. `loadingLog` and `dataLog` record every value
   * written to `loading` and `data`, oldest first; `Valid` ties the current
   * value of each cell to the last entry of its log.
   */
  class MediaScreen {
    var filter: string
    var query: string
    var data: seq<Record>
    var loading: bool
    ghost var loadingLog: seq<bool>
    ghost var dataLog: seq<seq<Record>>

    ghost predicate Valid()
      reads this
    {
      && (loadingLog == [] ==> !loading)
      && (loadingLog != [] ==> loading == loadingLog[|loadingLog| - 1])
      && (dataLog == [] ==> data == [])
      && (dataLog != [] ==> data == dataLog[|dataLog| - 1])
    }

    /**
     * The list the screen renders: the loaded records under the current
     * category and query, in loaded order, each passing the filter callback.
     */
    function Filtered(): (r: seq<Record>)
      reads this
      ensures IsSubseq(r, data)
      ensures forall x :: x in r <==> x in data && Keep(x, filter, query)
      ensures forall x :: multiset(r)[x] == if Keep(x, filter, query) then multiset(data)[x] else 0
    {
      var r := Visible(data, filter, query);
      assert forall x :: x in r <==> x in data && Keep(x, filter, query) by {
        forall x {
          VisibleMembership(data, filter, query, x);
        }
      }
      r
    }

    /** The initial state cells: category "all", empty query, no records, not loading. */
    constructor ()
      ensures Valid()
      ensures filter == All && query == "" && data == [] && !loading
      ensures loadingLog == [] && dataLog == []
    {
      filter, query, data, loading := All, "", [], false;
      loadingLog, dataLog := [], [];
    }

    /**
     * Mounting: the initial state, then the effect's single load run. On
     * failure `data` stays the empty initial list.
     */
    constructor Mount(email: Response, whatsapp: Response, meeting: Response)
      ensures Valid()
      ensures filter == All && query == "" && !loading
      ensures data == Settle(email, whatsapp, meeting).GetOr([])
      ensures loadingLog == [true, false]
      ensures dataLog == if Settle(email, whatsapp, meeting).Some? then [data] else []
    {
      filter, query, data, loading := All, "", [], false;
      loadingLog, dataLog := [], [];
      new;
      FetchAllData(email, whatsapp, meeting);
    }

    /** `setLoading(b)`. */
    method SetLoading(b: bool)
      requires Valid()
      modifies this`loading, this`loadingLog
      ensures Valid()
      ensures loading == b && loadingLog == old(loadingLog) + [b]
    {
      loading := b;
      loadingLog := loadingLog + [b];
    }

    /** `setData(d)`. */
    method SetData(d: seq<Record>)
      requires Valid()
      modifies this`data, this`dataLog
      ensures Valid()
      ensures data == d && dataLog == old(dataLog) + [d]
    {
      data := d;
      dataLog := dataLog + [d];
    }

    /** The start of the run, before the requests settle: `loading` is raised and nothing else changes. */
    method StartLoad()
      requires Valid()
      modifies this`loading, this`loadingLog
      ensures Valid()
      ensures loading && loadingLog == old(loadingLog) + [true]
    {
      SetLoading(true);
    }

    /**
     * The rest of the run, once the requests have settled while `loading`
     * was up: `data` is written exactly once with the full merge when all
     * three succeeded and not at all otherwise (the rejection is only
     * logged), then `loading` is lowered.
     */
    method FinishLoad(email: Response, whatsapp: Response, meeting: Response)
      requires Valid() && loading
      modifies this`loading, this`loadingLog, this`data, this`dataLog
      ensures Valid()
      ensures !loading && loadingLog == old(loadingLog) + [false]
      ensures data == Settle(email, whatsapp, meeting).GetOr(old(data))
      ensures dataLog == old(dataLog) + if Settle(email, whatsapp, meeting).Some? then [data] else []
    {
      match (email, whatsapp, meeting) {
        case (Success(e), Success(w), Success(m)) =>
          var allData := Merge(e, w, m);
          SetData(allData);
        case _ =>
          // the rejection is only logged to the console
      }
      SetLoading(false);
    }

    /**
     * One load run: `loading` is raised, then lowered on every path; `data`
     * is written once with the full merged list when all three sources
     * succeed and is never written otherwise; category and query stay.
     */
    method FetchAllData(email: Response, whatsapp: Response, meeting: Response)
      requires Valid()
      modifies this`loading, this`loadingLog, this`data, this`dataLog
      ensures Valid()
      ensures !loading
      ensures loadingLog == old(loadingLog) + [true, false]
      ensures data == Settle(email, whatsapp, meeting).GetOr(old(data))
      ensures dataLog == old(dataLog) + if Settle(email, whatsapp, meeting).Some? then [data] else []
    {
      StartLoad();
      FinishLoad(email, whatsapp, meeting);
    }

    /** Pressing a category button. */
    method SetFilter(f: string)
      requires f in Filters
      modifies this`filter
      ensures filter == f
    {
      filter := f;
    }

    /** Typing in the search box. */
    method SetQuery(q: string)
      modifies this`query
      ensures query == q
    {
      query := q;
    }
  }
}
