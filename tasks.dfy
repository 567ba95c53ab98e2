/**
 * The task list the earn service returns and the three ways the drivers read it:
 * the automatic tasks still to start, the keyword tasks (one per id), and the
 * status one account shows for one task.
 */
module Tasks {

  const NotStarted := "NOT_STARTED"
  const Started := "STARTED"
  const ReadyForVerify := "READY_FOR_VERIFY"
  const ReadyForClaim := "READY_FOR_CLAIM"
  const Finished := "FINISHED"
  /** The status the manual-task action records when an account's task list cannot be fetched. */
  const Unknown := "UNKNOWN"
  const AutoValidation := "DEFAULT"
  const KeywordValidation := "KEYWORD"

  datatype Task = Task(id: string, title: string, reward: string, status: string, validationType: string)

  /** A missing `tasks` array is the empty sequence. */
  datatype SubSection = SubSection(tasks: seq<Task>)

  /** A missing `tasks` or `subSections` array is the empty sequence. */
  datatype Section = Section(tasks: seq<Task>, subSections: seq<SubSection>)

  /** The tasks of a list of sub-sections, in document order. */
  function SubSectionTasks(subs: seq<SubSection>): seq<Task> {
    if subs == [] then [] else SubSectionTasks(subs[..|subs| - 1]) + subs[|subs| - 1].tasks
  }

  /** A section's own tasks come before the tasks of its sub-sections. */
  function SectionTasks(s: Section): seq<Task> {
    s.tasks + SubSectionTasks(s.subSections)
  }

  /** Every task of the list, section by section, in document order, duplicates kept. */
  function AllTasks(sections: seq<Section>): seq<Task> {
    if sections == [] then [] else AllTasks(sections[..|sections| - 1]) + SectionTasks(sections[|sections| - 1])
  }

  /** A task the automatic action starts and claims. */
  predicate IsAutoTask(t: Task) {
    t.status == NotStarted && t.validationType == AutoValidation
  }

  /** A task that needs a keyword to be validated. */
  predicate IsKeywordTask(t: Task) {
    t.validationType == KeywordValidation
  }

  /** The automatic tasks of `ts`, in order, duplicates kept. */
  function AutoOnly(ts: seq<Task>): (r: seq<Task>)
    ensures forall t {:trigger multiset(r)[t]} :: IsAutoTask(t) ==> multiset(r)[t] == multiset(ts)[t]
    ensures forall t {:trigger multiset(r)[t]} :: !IsAutoTask(t) ==> multiset(r)[t] == 0
  {
    if ts == [] then []
    else
      var init, last := ts[..|ts| - 1], ts[|ts| - 1];
      assert ts == init + [last];
      AutoOnly(init) + if IsAutoTask(last) then [last] else []
  }

  /** Filtering keeps order: the automatic tasks of a concatenation are those of its first
      part followed by those of its second part. */
  lemma {:induction false} AutoOnlyAppend(a: seq<Task>, b: seq<Task>)
    ensures AutoOnly(a + b) == AutoOnly(a) + AutoOnly(b)
    decreases |b|
  {
    if b == [] {
      assert a + b == a;
    } else {
      var init, last := b[..|b| - 1], b[|b| - 1];
      var tail := if IsAutoTask(last) then [last] else [];
      AutoOnlyAppend(a, init);
      var ab := a + b;
      assert ab[..|ab| - 1] == a + init && ab[|ab| - 1] == last;
      assert AutoOnly(ab) == AutoOnly(a + init) + tail;
      assert AutoOnly(b) == AutoOnly(init) + tail;
      assert AutoOnly(a) + AutoOnly(init) + tail == AutoOnly(a) + (AutoOnly(init) + tail);
    }
  }

  /** The keyword tasks of `ts`, in order, duplicates kept. */
  function KeywordOnly(ts: seq<Task>): (r: seq<Task>)
    ensures forall k :: 0 <= k < |r| ==> IsKeywordTask(r[k]) && r[k] in ts
    ensures forall t :: t in ts && IsKeywordTask(t) ==> t in r
  {
    if ts == [] then []
    else
      var init, last := ts[..|ts| - 1], ts[|ts| - 1];
      assert ts == init + [last];
      KeywordOnly(init) + if IsKeywordTask(last) then [last] else []
  }

  /** The automatic tasks of a task list (index.js, first part of the auto-complete action). */
  function AutoTasks(sections: seq<Section>): seq<Task> {
    AutoOnly(AllTasks(sections))
  }

  /** The ids occurring in `ts`. */
  function IdsOf(ts: seq<Task>): set<string> {
    set i | 0 <= i < |ts| :: ts[i].id
  }

  /** The index of the first task of `ts` whose id is `id`. */
  function FirstIndex(ts: seq<Task>, id: string): (i: nat)
    requires id in IdsOf(ts)
    ensures i < |ts| && ts[i].id == id
    ensures forall j :: 0 <= j < i ==> ts[j].id != id
  {
    var init := ts[..|ts| - 1];
    if id in IdsOf(init) then FirstIndex(init, id) else |ts| - 1
  }

  /** One task per id, the first occurrence kept, in order of first appearance (how a `Map` keyed by id is filled with `has`/`set`). */
  function FirstById(ts: seq<Task>): seq<Task> {
    if ts == [] then []
    else
      var kept := FirstById(ts[..|ts| - 1]);
      if ts[|ts| - 1].id in IdsOf(kept) then kept else kept + [ts[|ts| - 1]]
  }

  /** The keyword tasks of a task list, one per id (index.js, first part of the manual-task action). */
  function KeywordTasks(sections: seq<Section>): seq<Task> {
    FirstById(KeywordOnly(AllTasks(sections)))
  }

  /** The status of task `id` in `ts`: the last task with that id wins; none means not started. */
  function StatusIn(ts: seq<Task>, id: string): string {
    if ts == [] then NotStarted
    else if ts[|ts| - 1].id == id then ts[|ts| - 1].status
    else StatusIn(ts[..|ts| - 1], id)
  }

  /** The status one account's task list shows for task `id`. */
  function StatusOf(sections: seq<Section>, id: string): string {
    StatusIn(AllTasks(sections), id)
  }

  // ---------------------------------------------------------------------------
  // Properties of the readings

  /** Appending a task adds its id to the ids. */
  lemma IdsOfSnoc(ts: seq<Task>, t: Task)
    ensures IdsOf(ts + [t]) == IdsOf(ts) + {t.id}
  {
    var xs := ts + [t];
    assert xs[|ts|].id == t.id;
    forall id | id in IdsOf(ts)
      ensures id in IdsOf(xs)
    {
      var i :| 0 <= i < |ts| && ts[i].id == id;
      assert xs[i].id == id;
    }
  }

  /** Appending a task does not move the first occurrence of an id already present. */
  lemma FirstIndexSnoc(ts: seq<Task>, t: Task, id: string)
    requires id in IdsOf(ts)
    ensures id in IdsOf(ts + [t]) && FirstIndex(ts + [t], id) == FirstIndex(ts, id)
  {
    IdsOfSnoc(ts, t);
    assert (ts + [t])[..|ts|] == ts;
    assert (ts + [t])[FirstIndex(ts, id)].id == id;
  }

  /** De-duplication keeps exactly the ids of its input. */
  lemma {:induction false} FirstByIdIds(ts: seq<Task>)
    ensures IdsOf(FirstById(ts)) == IdsOf(ts)
  {
    if ts != [] {
      var init, last := ts[..|ts| - 1], ts[|ts| - 1];
      assert ts == init + [last];
      FirstByIdIds(init);
      IdsOfSnoc(init, last);
      IdsOfSnoc(FirstById(init), last);
    }
  }

  /** De-duplication never keeps two tasks with the same id. */
  lemma {:induction false} FirstByIdDistinct(ts: seq<Task>)
    ensures forall k, l :: 0 <= k < l < |FirstById(ts)| ==> FirstById(ts)[k].id != FirstById(ts)[l].id
  {
    if ts != [] {
      var init, last := ts[..|ts| - 1], ts[|ts| - 1];
      FirstByIdDistinct(init);
      var kept := FirstById(init);
      if last.id !in IdsOf(kept) {
        var r := kept + [last];
        assert FirstById(ts) == r;
        forall k, l | 0 <= k < l < |r|
          ensures r[k].id != r[l].id
        {
          assert r[k] == kept[k];
          if l == |kept| {
            assert r[l] == last;
            assert kept[k].id in IdsOf(kept);
          } else {
            assert r[l] == kept[l];
            assert kept[k].id != kept[l].id;
          }
        }
      }
    }
  }

  /** De-duplication keeps each id as its first occurrence. */
  lemma {:induction false} FirstByIdKeepsFirst(ts: seq<Task>)
    ensures forall k :: 0 <= k < |FirstById(ts)| ==>
              FirstById(ts)[k].id in IdsOf(ts) && FirstById(ts)[k] == ts[FirstIndex(ts, FirstById(ts)[k].id)]
  {
    if ts != [] {
      var init, last := ts[..|ts| - 1], ts[|ts| - 1];
      assert ts == init + [last];
      FirstByIdKeepsFirst(init);
      FirstByIdIds(init);
      var kept := FirstById(init);
      var r := FirstById(ts);
      forall k | 0 <= k < |r|
        ensures r[k].id in IdsOf(ts) && r[k] == ts[FirstIndex(ts, r[k].id)]
      {
        if k < |kept| {
          FirstIndexSnoc(init, last, kept[k].id);
        } else {
          IdsOfSnoc(init, last);
          assert FirstIndex(ts, last.id) == |ts| - 1;
        }
      }
    }
  }

  /** De-duplication keeps the tasks in order of first appearance. */
  lemma {:induction false} FirstByIdKeepsOrder(ts: seq<Task>)
    ensures forall k, l :: 0 <= k < l < |FirstById(ts)| ==>
              FirstById(ts)[k].id in IdsOf(ts) && FirstById(ts)[l].id in IdsOf(ts) &&
              FirstIndex(ts, FirstById(ts)[k].id) < FirstIndex(ts, FirstById(ts)[l].id)
  {
    if ts != [] {
      var init, last := ts[..|ts| - 1], ts[|ts| - 1];
      assert ts == init + [last];
      FirstByIdKeepsOrder(init);
      FirstByIdKeepsFirst(ts);
      FirstByIdIds(init);
      var kept := FirstById(init);
      forall k, l | 0 <= k < l < |FirstById(ts)|
        ensures FirstById(ts)[k].id in IdsOf(ts) && FirstById(ts)[l].id in IdsOf(ts) &&
                FirstIndex(ts, FirstById(ts)[k].id) < FirstIndex(ts, FirstById(ts)[l].id)
      {
        FirstIndexSnoc(init, last, kept[k].id);
        if l < |kept| {
          FirstIndexSnoc(init, last, kept[l].id);
        } else {
          IdsOfSnoc(init, last);
          assert FirstIndex(ts, last.id) == |ts| - 1;
        }
      }
      assert forall k, l :: 0 <= k < l < |FirstById(ts)| ==>
              FirstById(ts)[k].id in IdsOf(ts) && FirstById(ts)[l].id in IdsOf(ts) &&
              FirstIndex(ts, FirstById(ts)[k].id) < FirstIndex(ts, FirstById(ts)[l].id);
    } else {
      assert FirstById(ts) == [];
    }
  }

  /** The keyword-task list holds only keyword tasks of the list, one per id, and every
      keyword task's id. */
  lemma KeywordTasksSpec(sections: seq<Section>)
    ensures var r := KeywordTasks(sections);
            forall k :: 0 <= k < |r| ==> IsKeywordTask(r[k]) && r[k] in AllTasks(sections)
    ensures var r := KeywordTasks(sections);
            forall k, l :: 0 <= k < l < |r| ==> r[k].id != r[l].id
    ensures forall t :: t in AllTasks(sections) && IsKeywordTask(t) ==> t.id in IdsOf(KeywordTasks(sections))
  {
    var kw := KeywordOnly(AllTasks(sections));
    FirstByIdKeepsFirst(kw);
    FirstByIdIds(kw);
    FirstByIdDistinct(kw);
    var r := FirstById(kw);
    forall k | 0 <= k < |r|
      ensures IsKeywordTask(r[k]) && r[k] in AllTasks(sections)
    {
      var i := FirstIndex(kw, r[k].id);
      assert r[k] == kw[i];
    }
    forall t | t in AllTasks(sections) && IsKeywordTask(t)
      ensures t.id in IdsOf(r)
    {
      var i :| 0 <= i < |kw| && kw[i] == t;
      assert t.id in IdsOf(kw);
    }
  }

  /** When task `id` occurs, the status is that of its last occurrence. */
  lemma {:induction false} StatusIsLastMatch(ts: seq<Task>, id: string, i: nat)
    requires i < |ts| && ts[i].id == id
    requires forall j :: i < j < |ts| ==> ts[j].id != id
    ensures StatusIn(ts, id) == ts[i].status
  {
    if i < |ts| - 1 {
      StatusIsLastMatch(ts[..|ts| - 1], id, i);
    }
  }

  /** When task `id` does not occur, the status is `NOT_STARTED`. */
  lemma {:induction false} StatusDefaultsToNotStarted(ts: seq<Task>, id: string)
    requires forall j :: 0 <= j < |ts| ==> ts[j].id != id
    ensures StatusIn(ts, id) == NotStarted
  {
    if ts != [] {
      StatusDefaultsToNotStarted(ts[..|ts| - 1], id);
    }
  }

  // ---------------------------------------------------------------------------
  // The traversals, as the drivers run them

  /** The innermost `forEach`: the tasks of one array, pushed one by one. */
  method PushAll(ts: seq<Task>, more: seq<Task>) returns (r: seq<Task>)
    ensures r == ts + more
  {
    r := ts;
    for j := 0 to |more|
      invariant r == ts + more[..j]
    {
      assert more[..j + 1] == more[..j] + [more[j]];
      r := r + [more[j]];
    }
    assert more[..|more|] == more;
  }

  /** The nested `forEach` over sections, their tasks and their sub-sections' tasks. */
  method FlattenTasks(sections: seq<Section>) returns (ts: seq<Task>)
    ensures ts == AllTasks(sections)
  {
    ts := [];
    for i := 0 to |sections|
      invariant ts == AllTasks(sections[..i])
    {
      var section := sections[i];
      assert sections[..i + 1][..i] == sections[..i];
      ghost var before := ts;
      ts := PushAll(ts, section.tasks);
      for k := 0 to |section.subSections|
        invariant ts == before + section.tasks + SubSectionTasks(section.subSections[..k])
      {
        ghost var done := SubSectionTasks(section.subSections[..k]);
        assert section.subSections[..k + 1][..k] == section.subSections[..k];
        ts := PushAll(ts, section.subSections[k].tasks);
        assert before + section.tasks + done + section.subSections[k].tasks ==
               before + section.tasks + (done + section.subSections[k].tasks);
      }
      assert section.subSections[..|section.subSections|] == section.subSections;
      assert before + section.tasks + SubSectionTasks(section.subSections) == before + SectionTasks(section);
    }
    assert sections[..|sections|] == sections;
  }

  /** One more task of the flattened list: kept when it is an automatic task. */
  lemma AutoOnlyNext(ts: seq<Task>, i: nat)
    requires i < |ts|
    ensures AutoOnly(ts[..i + 1]) == AutoOnly(ts[..i]) + if IsAutoTask(ts[i]) then [ts[i]] else []
  {
    var s := ts[..i + 1];
    assert s[..|s| - 1] == ts[..i] && s[|s| - 1] == ts[i];
  }

  /** index.js:197-218: the automatic tasks, collected in one pass. */
  method CollectAutoTasks(sections: seq<Section>) returns (r: seq<Task>)
    ensures r == AutoTasks(sections)
  {
    var ts := FlattenTasks(sections);
    r := [];
    for i := 0 to |ts|
      invariant r == AutoOnly(ts[..i])
    {
      AutoOnlyNext(ts, i);
      if IsAutoTask(ts[i]) {
        r := r + [ts[i]];
      }
    }
    assert ts[..|ts|] == ts;
  }

  /** One more task of the flattened list: kept when it is a keyword task. */
  lemma KeywordOnlyNext(ts: seq<Task>, i: nat)
    requires i < |ts|
    ensures KeywordOnly(ts[..i + 1]) == KeywordOnly(ts[..i]) + if IsKeywordTask(ts[i]) then [ts[i]] else []
  {
    var s := ts[..i + 1];
    assert s[..|s| - 1] == ts[..i] && s[|s| - 1] == ts[i];
  }

  /** One more keyword task: kept when its id has not been kept before. */
  lemma FirstByIdNext(kw: seq<Task>, t: Task)
    ensures FirstById(kw + [t]) == if t.id in IdsOf(FirstById(kw)) then FirstById(kw) else FirstById(kw) + [t]
  {
    var s := kw + [t];
    assert s[..|s| - 1] == kw && s[|s| - 1] == t;
  }

  /** index.js:261-286: the keyword tasks, each id kept once, the first occurrence winning. */
  method CollectKeywordTasks(sections: seq<Section>) returns (r: seq<Task>)
    ensures r == KeywordTasks(sections)
  {
    var ts := FlattenTasks(sections);
    var seen: set<string> := {};
    r := [];
    ghost var kw: seq<Task> := [];
    for i := 0 to |ts|
      invariant kw == KeywordOnly(ts[..i])
      invariant r == FirstById(kw)
      invariant seen == IdsOf(r)
    {
      KeywordOnlyNext(ts, i);
      var t := ts[i];
      if IsKeywordTask(t) {
        FirstByIdNext(kw, t);
        kw := kw + [t];
        if t.id !in seen {
          IdsOfSnoc(r, t);
          r := r + [t];
          seen := seen + {t.id};
        }
      }
    }
    assert ts[..|ts|] == ts;
  }

  /** index.js:300-320: the status one account's list shows for task `id`. */
  method LookupStatus(sections: seq<Section>, id: string) returns (status: string)
    ensures status == StatusOf(sections, id)
  {
    var ts := FlattenTasks(sections);
    status := NotStarted;
    for i := 0 to |ts|
      invariant status == StatusIn(ts[..i], id)
    {
      assert ts[..i + 1][..i] == ts[..i];
      if ts[i].id == id {
        status := ts[i].status;
      }
    }
    assert ts[..|ts|] == ts;
  }
}
