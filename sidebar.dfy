/** The session settings and history list of
    frontend-new/src/components/Sidebar.jsx: the tag list rules, the title
    field, the listing order and the export button's busy flag. */
module Sidebar {
  import opened Base
  import opened Text
  import opened App

  /** `sessions[currentSessionId]?.tags || []` */
  function CurrentTags(store: Store, current: string): (tags: seq<string>)
    ensures current in store && store[current].tags.Some? ==> tags == store[current].tags.value
    ensures !(current in store && store[current].tags.Some?) ==> tags == []
  {
    if current in store then store[current].tags.GetOr([]) else []
  }

  predicate NoDuplicates(tags: seq<string>)
  {
    forall i, j :: 0 <= i < j < |tags| ==> tags[i] != tags[j]
  }

  /** What `handleAddTag` decides: leave the input as it is, clear it, or
      send a new tag list (and clear the input). */
  datatype TagAction = KeepInput | ClearInput | SendTags(newTags: seq<string>)

  function AddTag(tags: seq<string>, input: string): (a: TagAction)
    ensures a.KeepInput? <==> AllSpace(input)
    ensures a.ClearInput? <==> !AllSpace(input) && Trim(input) in tags
    ensures a.SendTags? ==> Trim(input) !in tags && a.newTags == tags + [Trim(input)]
  {
    TrimEmptyIff(input);
    var t := Trim(input);
    if t == "" then KeepInput
    else if t in tags then ClearInput
    else SendTags(tags + [t])
  }

  /** A tag list without repeats keeps none after an addition. */
  lemma AddTagKeepsDistinct(tags: seq<string>, input: string)
    requires NoDuplicates(tags)
    ensures AddTag(tags, input).SendTags? ==> NoDuplicates(AddTag(tags, input).newTags)
  {
    var a := AddTag(tags, input);
    if a.SendTags? {
      var n := a.newTags;
      forall i, j | 0 <= i < j < |n|
        ensures n[i] != n[j]
      {
        if j == |tags| {
          assert n[i] == tags[i];
        }
      }
    }
  }

  /** `tags.filter(t => t !== tag)` */
  function RemoveTag(tags: seq<string>, tag: string): (r: seq<string>)
    ensures forall x :: x in r <==> x in tags && x != tag
    ensures |r| <= |tags|
  {
    if tags == [] then []
    else (if tags[0] == tag then [] else [tags[0]]) + RemoveTag(tags[1..], tag)
  }

  /** Removal keeps the order of what is left: it works piecewise. */
  lemma {:induction false} RemoveTagAppend(a: seq<string>, b: seq<string>, tag: string)
    ensures RemoveTag(a + b, tag) == RemoveTag(a, tag) + RemoveTag(b, tag)
  {
    if a == [] {
      assert a + b == b;
    } else {
      assert (a + b)[1..] == a[1..] + b;
      RemoveTagAppend(a[1..], b, tag);
    }
  }

  /** Removing a tag that is not there sends the same list. */
  lemma {:induction false} RemoveAbsentTag(tags: seq<string>, tag: string)
    requires tag !in tags
    ensures RemoveTag(tags, tag) == tags
  {
    if tags != [] {
      RemoveAbsentTag(tags[1..], tag);
    }
  }

  /** Removing the tag just added gives back the list before. */
  lemma AddThenRemove(tags: seq<string>, input: string)
    requires AddTag(tags, input).SendTags?
    ensures RemoveTag(AddTag(tags, input).newTags, Trim(input)) == tags
  {
    var t := Trim(input);
    RemoveTagAppend(tags, [t], t);
    RemoveAbsentTag(tags, t);
    assert RemoveTag([t], t) == [] + RemoveTag([], t);
  }

  lemma {:induction false} RemoveKeepsDistinct(tags: seq<string>, tag: string)
    requires NoDuplicates(tags)
    ensures NoDuplicates(RemoveTag(tags, tag))
  {
    if tags != [] {
      RemoveKeepsDistinct(tags[1..], tag);
      var rest := RemoveTag(tags[1..], tag);
      assert tags[0] !in tags[1..];
    }
  }

  /** The update the sidebar sends: just the tags, or just the title. */
  function TagsUpdate(tags: seq<string>): Session
  {
    Session(None, None, None, None, Some(tags))
  }

  function TitleUpdate(title: string): Session
  {
    Session(None, Some(title), None, None, None)
  }

  /** `a` is listed before `b` by `(a, b) => b.timestamp - a.timestamp`
      only when both have a timestamp and `a`'s is later. */
  predicate Before(a: Session, b: Session)
  {
    a.timestamp.Some? && b.timestamp.Some? && a.timestamp.value > b.timestamp.value
  }

  /** Inserts `x` ahead of the first entry it does not come after, so
      entries with equal keys keep their order. */
  function Insert(x: Session, sorted: seq<Session>): (r: seq<Session>)
    ensures multiset(r) == multiset(sorted) + multiset{x}
    ensures forall y :: y in r <==> y == x || y in sorted
  {
    if sorted == [] then [x]
    else
      assert sorted == [sorted[0]] + sorted[1..];
      if Before(sorted[0], x) then [sorted[0]] + Insert(x, sorted[1..])
      else [x] + sorted
  }

  /** `Object.values(sessions).sort(...)` for the values as enumerated. */
  function SortedSessions(values: seq<Session>): (r: seq<Session>)
    ensures multiset(r) == multiset(values)
  {
    if values == [] then []
    else
      assert values == [values[0]] + values[1..];
      Insert(values[0], SortedSessions(values[1..]))
  }

  predicate AllTimestamped(s: seq<Session>)
  {
    forall i :: 0 <= i < |s| ==> s[i].timestamp.Some?
  }

  predicate Descending(s: seq<Session>)
    requires AllTimestamped(s)
  {
    forall i, j :: 0 <= i < j < |s| ==> s[i].timestamp.value >= s[j].timestamp.value
  }

  lemma {:induction false} InsertDescending(x: Session, sorted: seq<Session>)
    requires x.timestamp.Some? && AllTimestamped(sorted) && Descending(sorted)
    ensures AllTimestamped(Insert(x, sorted)) && Descending(Insert(x, sorted))
  {
    var r := Insert(x, sorted);
    if sorted == [] {
    } else if Before(sorted[0], x) {
      var rest := sorted[1..];
      assert AllTimestamped(rest) && Descending(rest) by {
        forall i | 0 <= i < |rest| ensures rest[i] == sorted[i + 1] { }
      }
      InsertDescending(x, rest);
      var tail := Insert(x, rest);
      assert r == [sorted[0]] + tail;
      forall k | 0 <= k < |tail|
        ensures tail[k].timestamp.Some? && sorted[0].timestamp.value >= tail[k].timestamp.value
      {
        assert tail[k] in tail;
        if tail[k] != x {
          var m :| 0 <= m < |rest| && rest[m] == tail[k];
          assert sorted[m + 1] == tail[k];
        }
      }
      forall i, j | 0 <= i < j < |r|
        ensures r[i].timestamp.value >= r[j].timestamp.value
      {
        if i == 0 {
          assert r[j] == tail[j - 1];
        } else {
          assert r[i] == tail[i - 1] && r[j] == tail[j - 1];
        }
      }
    } else {
      assert r == [x] + sorted;
      forall i, j | 0 <= i < j < |r|
        ensures r[i].timestamp.value >= r[j].timestamp.value
      {
        if i == 0 {
          assert r[j] == sorted[j - 1];
        } else {
          assert r[i] == sorted[i - 1] && r[j] == sorted[j - 1];
        }
      }
    }
  }

  /** When every listed record has a timestamp (every record the client
      stored itself does), the list is newest first. */
  lemma {:induction false} SortedSessionsDescending(values: seq<Session>)
    requires AllTimestamped(values)
    ensures AllTimestamped(SortedSessions(values)) && Descending(SortedSessions(values))
  {
    if values != [] {
      assert AllTimestamped(values[1..]) by {
        forall i | 0 <= i < |values[1..]| ensures values[1..][i].timestamp.Some? {
          assert values[1..][i] == values[i + 1];
        }
      }
      SortedSessionsDescending(values[1..]);
      InsertDescending(values[0], SortedSessions(values[1..]));
    }
  }

  class SidebarState {
    var reportTitle: string
    var isExporting: bool
    var tagInput: string

    constructor()
      ensures reportTitle == "我的研报" && !isExporting && tagInput == ""
    {
      reportTitle := "我的研报";
      isExporting := false;
      tagInput := "";
    }

    method HandleTagInput(value: string)
      modifies this
      ensures tagInput == value
      ensures reportTitle == old(reportTitle) && isExporting == old(isExporting)
    {
      tagInput := value;
    }

    /** The effect that copies the current session's title into the title
        field when it has a non-empty one. */
    method SyncReportTitle(app: AppState)
      modifies this
      ensures var rec := Lookup(app.sessions, app.currentSessionId);
        reportTitle == (if rec.Some? && TruthyText(rec.value.title) then rec.value.title.value else old(reportTitle))
      ensures tagInput == old(tagInput) && isExporting == old(isExporting)
    {
      if app.currentSessionId in app.sessions {
        var title := app.sessions[app.currentSessionId].title;
        if title.Some? && title.value != "" {
          reportTitle := title.value;
        }
      }
    }

    method HandleAddTag(app: AppState)
      modifies this, app
      ensures var a := AddTag(CurrentTags(old(app.sessions), old(app.currentSessionId)), old(tagInput));
        (a.KeepInput? ==> tagInput == old(tagInput) && app.sessions == old(app.sessions)) &&
        (a.ClearInput? ==> tagInput == "" && app.sessions == old(app.sessions)) &&
        (a.SendTags? ==>
           tagInput == "" && app.sessions == ApplyUpdate(old(app.sessions), old(app.currentSessionId), TagsUpdate(a.newTags)))
      ensures app.currentSessionId == old(app.currentSessionId) && app.messages == old(app.messages)
      ensures app.isLoading == old(app.isLoading) && app.config == old(app.config) && app.pending == old(app.pending)
      ensures reportTitle == old(reportTitle) && isExporting == old(isExporting)
    {
      var tags := CurrentTags(app.sessions, app.currentSessionId);
      var t := Trim(tagInput);
      if t == "" {
        return;
      }
      if t in tags {
        tagInput := "";
        return;
      }
      var newTags := tags + [t];
      app.HandleUpdateSession(app.currentSessionId, TagsUpdate(newTags));
      tagInput := "";
    }

    method HandleRemoveTag(app: AppState, tag: string)
      modifies app
      ensures app.sessions == ApplyUpdate(old(app.sessions), old(app.currentSessionId),
                                          TagsUpdate(RemoveTag(CurrentTags(old(app.sessions), old(app.currentSessionId)), tag)))
      ensures app.currentSessionId == old(app.currentSessionId) && app.messages == old(app.messages)
      ensures app.isLoading == old(app.isLoading) && app.config == old(app.config) && app.pending == old(app.pending)
    {
      var newTags := RemoveTag(CurrentTags(app.sessions, app.currentSessionId), tag);
      app.HandleUpdateSession(app.currentSessionId, TagsUpdate(newTags));
    }

    /** The typed value, even an empty one, becomes the title. */
    method HandleTitleChange(app: AppState, value: string)
      modifies this, app
      ensures reportTitle == value
      ensures app.sessions == ApplyUpdate(old(app.sessions), old(app.currentSessionId), TitleUpdate(value))
      ensures app.currentSessionId in app.sessions && app.sessions[app.currentSessionId].title == Some(value)
      ensures app.currentSessionId == old(app.currentSessionId) && app.messages == old(app.messages)
      ensures app.isLoading == old(app.isLoading) && app.config == old(app.config) && app.pending == old(app.pending)
      ensures tagInput == old(tagInput) && isExporting == old(isExporting)
    {
      reportTitle := value;
      app.HandleUpdateSession(app.currentSessionId, TitleUpdate(value));
    }

    /** `handleExportClick`; `serverOk` says whether the `/pdf` call
        succeeded. `alerted` is the failure alert. The busy flag is down
        again on every path. */
    method HandleExportClick(app: AppState, serverOk: bool) returns (r: ExportResult, alerted: bool)
      modifies this
      ensures r == ExportFor(app.messages, app.currentSessionId, old(reportTitle), serverOk)
      ensures alerted <==> r.Failed?
      ensures !isExporting
      ensures reportTitle == old(reportTitle) && tagInput == old(tagInput)
    {
      isExporting := true;
      r := app.HandleExportPDF(reportTitle, serverOk);
      if r.Failed? {
        alerted := true;
        isExporting := false;
      } else {
        alerted := false;
        isExporting := false;
      }
    }
  }
}
