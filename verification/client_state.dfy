/** The browser client's list state (frontend/src/App.tsx): the loaded
    entries, the search box, and the handlers that keep the list in step
    with the backend after a delete, an update or a create. A request's
    result (what the server answered, or the message of the error it
    raised) is a parameter of the handler that awaits it, and each handler
    returns the call it issued and the alert it showed, if any. */
module ClientState {
  import opened Base
  import opened Text
  import opened ApiMapping

  /** How an awaited request ended. */
  datatype Outcome<+T> = Succeeded(value: T) | Failed(message: string)

  /** The request a handler sent to the backend. */
  datatype ApiCall =
    | NoCall
    | DeleteCall(id: string)
    | UpdateCall(id: string, body: BackendPayload)
    | CreateCall(body: BackendPayload)

  // ----------------------------------------------------------- list helpers

  /** `s.filter(p)`. */
  function Keep<T>(s: seq<T>, p: T -> bool): (r: seq<T>)
    ensures |r| <= |s|
    ensures forall x :: x in r ==> x in s && p(x)
    ensures forall x :: x in s && p(x) ==> x in r
  {
    if s == [] then [] else (if p(s[0]) then [s[0]] else []) + Keep(s[1..], p)
  }

  /** r is s with some elements dropped and the rest in their order. */
  predicate IsSubsequence<T(==)>(r: seq<T>, s: seq<T>)
    decreases |s|
  {
    r == [] || (s != [] && ((r[0] == s[0] && IsSubsequence(r[1..], s[1..])) || IsSubsequence(r, s[1..])))
  }

  /** Filtering keeps the order of what it keeps. */
  lemma {:induction false} KeepIsSubsequence<T>(s: seq<T>, p: T -> bool)
    ensures IsSubsequence(Keep(s, p), s)
  {
    if s != [] {
      KeepIsSubsequence(s[1..], p);
      if p(s[0]) {
        assert Keep(s, p)[0] == s[0] && Keep(s, p)[1..] == Keep(s[1..], p);
      } else {
        assert Keep(s, p) == Keep(s[1..], p);
      }
    }
  }

  /** A filter that every element passes changes nothing. */
  lemma {:induction false} KeepEverything<T>(s: seq<T>, p: T -> bool)
    requires forall x :: x in s ==> p(x)
    ensures Keep(s, p) == s
  {
    if s != [] {
      assert forall x :: x in s[1..] ==> x in s;
      KeepEverything(s[1..], p);
      assert s == [s[0]] + s[1..];
    }
  }

  /** Two filters may be applied in either order. */
  lemma {:induction false} KeepCommutes<T>(s: seq<T>, p: T -> bool, q: T -> bool)
    ensures Keep(Keep(s, p), q) == Keep(Keep(s, q), p)
  {
    if s != [] {
      KeepCommutes(s[1..], p, q);
      KeepHead(s, p);
      KeepHead(s, q);
      if p(s[0]) {
        KeepHead(Keep(s, p), q);
      }
      if q(s[0]) {
        KeepHead(Keep(s, q), p);
      }
    }
  }

  /** Filtering a concatenation filters each part in turn, so every copy
      of a passing element survives, in place. */
  lemma {:induction false} KeepAppend<T>(a: seq<T>, b: seq<T>, p: T -> bool)
    ensures Keep(a + b, p) == Keep(a, p) + Keep(b, p)
  {
    if a == [] {
      assert a + b == b;
    } else {
      assert (a + b)[0] == a[0] && (a + b)[1..] == a[1..] + b;
      KeepAppend(a[1..], b, p);
    }
  }

  /** One step of `Keep`. */
  lemma KeepHead<T>(s: seq<T>, p: T -> bool)
    requires s != []
    ensures Keep(s, p) == if p(s[0]) then [s[0]] + Keep(s[1..], p) else Keep(s[1..], p)
  {
  }

  // ----------------------------------------------------------------- search

  /** The search predicate: the lower-cased query occurs in the lower-cased
      error code, name, symptom text or root cause. */
  predicate Matches(e: FrontendEntry, query: string) {
    var q := Lower(query);
    Contains(Lower(e.errorCode), q) || Contains(Lower(e.name), q) ||
    Contains(Lower(e.symptoms), q) || Contains(Lower(e.rootCause), q)
  }

  function MatchesQuery(query: string): FrontendEntry -> bool {
    (e: FrontendEntry) => Matches(e, query)
  }

  /** `filteredEntries`. */
  function FilterEntries(es: seq<FrontendEntry>, query: string): seq<FrontendEntry> {
    Keep(es, MatchesQuery(query))
  }

  /** An entry is shown iff it is loaded and matches; those shown keep the
      list's order. */
  lemma FilterShape(es: seq<FrontendEntry>, query: string)
    ensures forall e :: e in FilterEntries(es, query) <==> e in es && Matches(e, query)
    ensures IsSubsequence(FilterEntries(es, query), es)
  {
    KeepIsSubsequence(es, MatchesQuery(query));
  }

  /** The empty search box shows every loaded entry. */
  lemma EmptyQueryShowsAll(es: seq<FrontendEntry>)
    ensures FilterEntries(es, "") == es
  {
    forall e | e in es ensures Matches(e, "") {
      assert Lower("") == "";
      ContainsEmpty(Lower(e.errorCode));
    }
    KeepEverything(es, MatchesQuery(""));
  }

  /** The search ignores ASCII letter case. */
  lemma SearchIgnoresCase(e: FrontendEntry, query: string)
    ensures Matches(e, query) <==> Matches(e, Upper(query))
  {
    assert Lower(Upper(query)) == Lower(query);
  }

  // ------------------------------------------------------- list after calls

  function NotId(id: string): FrontendEntry -> bool {
    (e: FrontendEntry) => e.id != id
  }

  /** `entries.filter(entry => entry.id !== id)`. */
  function WithoutId(es: seq<FrontendEntry>, id: string): seq<FrontendEntry> {
    Keep(es, NotId(id))
  }

  /** `entries.map(e => e.id === updated.id ? updated : e)`. */
  function ReplaceById(es: seq<FrontendEntry>, updated: FrontendEntry): (r: seq<FrontendEntry>)
    ensures |r| == |es|
    ensures forall i :: 0 <= i < |es| ==>
              (es[i].id == updated.id ==> r[i] == updated) && (es[i].id != updated.id ==> r[i] == es[i])
  {
    if es == [] then [] else [if es[0].id == updated.id then updated else es[0]] + ReplaceById(es[1..], updated)
  }

  /** After a delete, no entry with that id is left and every other one is,
      in its order. */
  lemma DeleteShape(es: seq<FrontendEntry>, id: string)
    ensures forall e :: e in WithoutId(es, id) <==> e in es && e.id != id
    ensures IsSubsequence(WithoutId(es, id), es)
  {
    KeepIsSubsequence(es, NotId(id));
  }

  /** Replacing and then deleting an id is deleting it. */
  lemma {:induction false} ReplaceThenDelete(es: seq<FrontendEntry>, updated: FrontendEntry)
    ensures WithoutId(ReplaceById(es, updated), updated.id) == WithoutId(es, updated.id)
  {
    if es != [] {
      ReplaceThenDelete(es[1..], updated);
      KeepHead(es, NotId(updated.id));
      KeepHead(ReplaceById(es, updated), NotId(updated.id));
      assert ReplaceById(es, updated)[1..] == ReplaceById(es[1..], updated);
    }
  }

  /** The visible list after a delete is the visible list before it without
      that id. */
  lemma DeleteThenSearch(es: seq<FrontendEntry>, id: string, query: string)
    ensures FilterEntries(WithoutId(es, id), query) == WithoutId(FilterEntries(es, query), id)
  {
    KeepCommutes(es, NotId(id), MatchesQuery(query));
  }

  /** The body the update and create calls send for an edited entry. */
  function PayloadOf(e: FrontendEntry): BackendPayload {
    MapFrontendToBackend(FrontendDraft(Some(e.name), Some(e.symptoms), Some(e.severity), Some(e.status), Some(e.rootCause)))
  }

  const DeleteFailedPrefix: string := "Failed to delete entry: "
  const SaveFailedPrefix: string := "Failed to save entry: "

  // ------------------------------------------------------------------ state

  class Client {
    var entries: seq<FrontendEntry>
    var loading: bool
    var error: Option<string>
    var searchQuery: string
    var modalOpen: bool
    var editing: Option<FrontendEntry>
    var detailOpen: bool
    var selected: Option<FrontendEntry>

    /** The initial state: nothing loaded yet, loading, all dialogs closed. */
    constructor ()
      ensures entries == [] && loading && error == None && searchQuery == ""
      ensures !modalOpen && editing == None && !detailOpen && selected == None
    {
      entries := [];
      loading := true;
      error := None;
      searchQuery := "";
      modalOpen := false;
      editing := None;
      detailOpen := false;
      selected := None;
    }

    /** The entries the list shows. */
    function Visible(): seq<FrontendEntry>
      reads this
    {
      FilterEntries(entries, searchQuery)
    }

    /** loadEntries once the fetch has settled: the list is replaced by the
        fetched one, or the error message is kept and the list stays. */
    method LoadEntries(outcome: Outcome<seq<FrontendEntry>>)
      modifies this
      ensures outcome.Succeeded? ==> entries == outcome.value && error == None
      ensures outcome.Failed? ==> entries == old(entries) && error == Some(outcome.message)
      ensures !loading
      ensures searchQuery == old(searchQuery) && modalOpen == old(modalOpen) && editing == old(editing)
      ensures detailOpen == old(detailOpen) && selected == old(selected)
    {
      loading := true;
      error := None;
      match outcome {
        case Succeeded(data) =>
          entries := data;
        case Failed(message) =>
          error := Some(message);
      }
      loading := false;
    }

    method SetSearchQuery(query: string)
      modifies this
      ensures searchQuery == query && Visible() == FilterEntries(entries, query)
      ensures entries == old(entries) && loading == old(loading) && error == old(error)
      ensures modalOpen == old(modalOpen) && editing == old(editing)
      ensures detailOpen == old(detailOpen) && selected == old(selected)
    {
      searchQuery := query;
    }

    /** handleCreateEntry: an empty form. */
    method HandleCreateEntry()
      modifies this
      ensures modalOpen && editing == None
      ensures entries == old(entries) && loading == old(loading) && error == old(error)
      ensures searchQuery == old(searchQuery) && detailOpen == old(detailOpen) && selected == old(selected)
    {
      editing := None;
      modalOpen := true;
    }

    /** handleEditEntry: the form filled with an entry. */
    method HandleEditEntry(entry: FrontendEntry)
      modifies this
      ensures modalOpen && editing == Some(entry)
      ensures entries == old(entries) && loading == old(loading) && error == old(error)
      ensures searchQuery == old(searchQuery) && detailOpen == old(detailOpen) && selected == old(selected)
    {
      editing := Some(entry);
      modalOpen := true;
    }

    /** handleCloseModal. */
    method HandleCloseModal()
      modifies this
      ensures !modalOpen && editing == None
      ensures entries == old(entries) && loading == old(loading) && error == old(error)
      ensures searchQuery == old(searchQuery) && detailOpen == old(detailOpen) && selected == old(selected)
    {
      modalOpen := false;
      editing := None;
    }

    /** handleViewEntry. */
    method HandleViewEntry(entry: FrontendEntry)
      modifies this
      ensures detailOpen && selected == Some(entry)
      ensures entries == old(entries) && loading == old(loading) && error == old(error)
      ensures searchQuery == old(searchQuery) && modalOpen == old(modalOpen) && editing == old(editing)
    {
      selected := Some(entry);
      detailOpen := true;
    }

    /** handleCloseDetailModal. */
    method HandleCloseDetailModal()
      modifies this
      ensures !detailOpen && selected == None
      ensures entries == old(entries) && loading == old(loading) && error == old(error)
      ensures searchQuery == old(searchQuery) && modalOpen == old(modalOpen) && editing == old(editing)
    {
      detailOpen := false;
      selected := None;
    }

    /** handleDeleteEntry: nothing happens unless the user confirms; a
        successful delete drops every entry with that id, a failed one
        leaves the list as it was and raises an alert. */
    method HandleDeleteEntry(id: string, confirmed: bool, outcome: Outcome<()>) returns (sent: ApiCall, alert: Option<string>)
      modifies this
      ensures sent == (if confirmed then DeleteCall(id) else NoCall)
      ensures confirmed && outcome.Succeeded? ==> entries == WithoutId(old(entries), id) && alert == None
      ensures !(confirmed && outcome.Succeeded?) ==> entries == old(entries)
      ensures alert == (if confirmed && outcome.Failed? then Some(DeleteFailedPrefix + outcome.message) else None)
      ensures loading == old(loading) && error == old(error) && searchQuery == old(searchQuery)
      ensures modalOpen == old(modalOpen) && editing == old(editing)
      ensures detailOpen == old(detailOpen) && selected == old(selected)
    {
      sent := NoCall;
      alert := None;
      if confirmed {
        sent := DeleteCall(id);
        match outcome
        case Succeeded(_) =>
          entries := WithoutId(entries, id);
        case Failed(message) =>
          alert := Some(DeleteFailedPrefix + message);
      }
    }

    /** handleSaveEntry: while editing, an update of `entry.id` whose answer
        replaces the entries carrying the answer's id; otherwise a create
        whose answer is appended. On success the form closes; on failure
        nothing changes but the alert. */
    method HandleSaveEntry(entry: FrontendEntry, outcome: Outcome<FrontendEntry>) returns (sent: ApiCall, alert: Option<string>)
      modifies this
      ensures sent == (if old(editing).Some? then UpdateCall(entry.id, PayloadOf(entry)) else CreateCall(PayloadOf(entry)))
      ensures outcome.Succeeded? && old(editing).Some? ==> entries == ReplaceById(old(entries), outcome.value)
      ensures outcome.Succeeded? && old(editing).None? ==> entries == old(entries) + [outcome.value]
      ensures outcome.Succeeded? ==> !modalOpen && editing == None && alert == None
      ensures outcome.Failed? ==>
                entries == old(entries) && modalOpen == old(modalOpen) && editing == old(editing) &&
                alert == Some(SaveFailedPrefix + outcome.message)
      ensures loading == old(loading) && error == old(error) && searchQuery == old(searchQuery)
      ensures detailOpen == old(detailOpen) && selected == old(selected)
    {
      alert := None;
      if editing.Some? {
        sent := UpdateCall(entry.id, PayloadOf(entry));
      } else {
        sent := CreateCall(PayloadOf(entry));
      }
      match outcome
      case Failed(message) =>
        alert := Some(SaveFailedPrefix + message);
      case Succeeded(answer) =>
        if editing.Some? {
          entries := ReplaceById(entries, answer);
        } else {
          entries := entries + [answer];
        }
        modalOpen := false;
        editing := None;
    }
  }
}
