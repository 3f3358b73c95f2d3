/**
Attaching an issue to a board as a retry protocol. Every remote call may fail
before or after it took effect, an attempt stops at its first failure, and
other parties edit the board between attempts.
 */
module AttachIssue {
  import opened Wrappers

  const PROJECT_ITEMS_WINDOW: nat := 20
  const FIELD_VALUES_WINDOW: nat := 25

  /** An item of the issue on some project: its set single-select fields and how many other values it has. */
  datatype Item = Item(project: string, fields: map<string, string>, otherValues: nat)

  /** The remote state around one issue. */
  datatype Remote = Remote(
    issueExists: bool, items: seq<Item>, issueType: Option<string>, labels: set<string>, repoLabels: set<string>)

  /** Node ids resolved once, and what the lane wants set. */
  datatype Lane = Lane(
    repo: string, project: string, readyField: string, priorityField: string,
    options: map<string, set<string>>, knownTypes: set<string>,
    status: string, priority: string, itemType: string, provenance: string)

  /** The owner and the name, both non-empty and separated by the only slash. */
  predicate SplitsRepo(repo: string)
  {
    exists k :: 0 < k < |repo| - 1 && repo[k] == '/' && forall j :: 0 <= j < |repo| && repo[j] == '/' ==> j == k
  }

  /** A call goes through, fails without effect, or takes effect and still fails. */
  datatype Fault = Clean | FailsBefore | FailsAfter

  datatype Faults = Faults(
    ids: Fault, find: Fault, add: Fault, readFields: Fault,
    statusWrite: Fault, statusRead: Fault, priorityWrite: Fault, priorityRead: Fault,
    typeQuery: Fault, typeWrite: Fault, labelQuery: Fault, repoQuery: Fault, labelCreate: Fault, labelAdd: Fault)

  const NO_FAULTS: Faults :=
    Faults(Clean, Clean, Clean, Clean, Clean, Clean, Clean, Clean, Clean, Clean, Clean, Clean, Clean, Clean)

  datatype AttachError =
    | Transport | IssueNotFound | Truncated | FieldNotFound | OptionNotFound | VerificationFailed | TypeNotFound

  /** Where a stretch of calls left the board, and the error that stopped it. */
  datatype Outcome = Outcome(remote: Remote, error: Option<AttachError>)

  // ---------------------------------------------------------------------- the steps

  /** Position of the project's item, or the number of items when there is none. */
  function FindItem(items: seq<Item>, project: string): (k: nat)
    ensures k <= |items|
    ensures k < |items| ==> items[k].project == project
    ensures forall i :: 0 <= i < k ==> items[i].project != project
  {
    if items == [] || items[0].project == project then 0 else 1 + FindItem(items[1..], project)
  }

  /** A mutation: its effect happens unless it failed before. */
  function Mutated(r: Remote, changed: Remote, fault: Fault): Outcome
  {
    match fault
    case Clean => Outcome(changed, None)
    case FailsBefore => Outcome(r, Some(Transport))
    case FailsAfter => Outcome(changed, Some(Transport))
  }

  function WithField(r: Remote, k: nat, field: string, value: string): Remote
    requires k < |r.items|
  {
    r.(items := r.items[k := r.items[k].(fields := r.items[k].fields[field := value])])
  }

  /** Writes one single-select field and verifies it by reading it back. */
  function SetSingleSelect(lane: Lane, r: Remote, k: nat, field: string, value: string, write: Fault,
                           read: Fault): Outcome
    requires k < |r.items|
  {
    if field !in lane.options then Outcome(r, Some(FieldNotFound))
    else if value !in lane.options[field] then Outcome(r, Some(OptionNotFound))
    else
      var written := Mutated(r, WithField(r, k, field, value), write);
      if written.error.Some? then written
      else if !read.Clean? then Outcome(written.remote, Some(Transport))
      else if field in written.remote.items[k].fields && written.remote.items[k].fields[field] == value then written
      else Outcome(written.remote, Some(VerificationFailed))
  }

  predicate NeedsType(r: Remote) { r.issueType.None? || r.issueType.value == "" }

  function SetIssueType(lane: Lane, r: Remote, faults: Faults): Outcome
  {
    if !faults.typeQuery.Clean? then Outcome(r, Some(Transport))
    else if lane.itemType !in lane.knownTypes then Outcome(r, Some(TypeNotFound))
    else Mutated(r, r.(issueType := Some(lane.itemType)), faults.typeWrite)
  }

  /** Resolves the label, creating it when the repository lacks it, and adds it to the issue. */
  function ApplyLabel(lane: Lane, r: Remote, faults: Faults): Outcome
  {
    if !faults.labelQuery.Clean? then Outcome(r, Some(Transport))
    else
      var resolved :=
        if lane.provenance in r.repoLabels then Outcome(r, None)
        else if !faults.repoQuery.Clean? then Outcome(r, Some(Transport))
        else Mutated(r, r.(repoLabels := r.repoLabels + {lane.provenance}), faults.labelCreate);
      if resolved.error.Some? then resolved
      else Mutated(resolved.remote, resolved.remote.(labels := resolved.remote.labels + {lane.provenance}),
                   faults.labelAdd)
  }

  /** Finds or adds the project's item. A truncated window proves nothing and is refused. */
  function EnsureItem(lane: Lane, r: Remote, faults: Faults): Outcome
  {
    if !faults.ids.Clean? then Outcome(r, Some(Transport))
    else if !SplitsRepo(lane.repo) then Outcome(r, Some(IssueNotFound))
    else if !faults.find.Clean? then Outcome(r, Some(Transport))
    else if !r.issueExists then Outcome(r, Some(IssueNotFound))
    else if |r.items| > PROJECT_ITEMS_WINDOW then Outcome(r, Some(Truncated))
    else if FindItem(r.items, lane.project) < |r.items| then Outcome(r, None)
    else Mutated(r, r.(items := r.items + [Item(lane.project, map[], 0)]), faults.add)
  }

  /** Reads the set fields of an item that was already there. */
  function ReadFields(item: Item, fault: Fault): Option<AttachError>
  {
    if !fault.Clean? then Some(Transport)
    else if |item.fields| + item.otherValues > FIELD_VALUES_WINDOW then Some(Truncated)
    else None
  }

  /** Status and priority: both for a new item, only the unset ones otherwise. */
  function EnsureFields(lane: Lane, r: Remote, k: nat, isNew: bool, faults: Faults): Outcome
    requires k < |r.items|
  {
    var fields := r.items[k].fields;
    var status := if isNew || lane.readyField !in fields
                  then SetSingleSelect(lane, r, k, lane.readyField, lane.status, faults.statusWrite, faults.statusRead)
                  else Outcome(r, None);
    if status.error.Some? || k >= |status.remote.items| then status
    else if isNew || lane.priorityField !in fields
    then SetSingleSelect(lane, status.remote, k, lane.priorityField, lane.priority, faults.priorityWrite,
                         faults.priorityRead)
    else status
  }

  datatype Attempted = Attempted(remote: Remote, result: Option<bool>, error: Option<AttachError>)

  function Failed(o: Outcome): Attempted { Attempted(o.remote, None, o.error) }

  /** The type when it is missing, then the label. */
  function TypeAndLabel(lane: Lane, r: Remote, needsType: bool, faults: Faults): Outcome
  {
    var typed := if needsType then SetIssueType(lane, r, faults) else Outcome(r, None);
    if typed.error.Some? then typed else ApplyLabel(lane, typed.remote, faults)
  }

  /** The tail of an attempt: fields, type, label, in this order. */
  function Complete(lane: Lane, r: Remote, k: nat, isNew: bool, needsType: bool, faults: Faults): Outcome
    requires k < |r.items|
  {
    var fields := EnsureFields(lane, r, k, isNew, faults);
    if fields.error.Some? then fields else TypeAndLabel(lane, fields.remote, needsType, faults)
  }

  /** One whole attempt: `Some(true)` when it added the item, `Some(false)` when the item was there. */
  function Attempt(lane: Lane, r: Remote, faults: Faults): Attempted
  {
    var added := EnsureItem(lane, r, faults);
    if added.error.Some? then Failed(added)
    else
      var isNew := FindItem(r.items, lane.project) == |r.items|;
      var k := FindItem(added.remote.items, lane.project);
      if k >= |added.remote.items| then Failed(Outcome(added.remote, Some(IssueNotFound)))
      else
        var unread := if isNew then None else ReadFields(added.remote.items[k], faults.readFields);
        if unread.Some? then Attempted(added.remote, None, unread)
        else
          var done := Complete(lane, added.remote, k, isNew, NeedsType(r), faults);
          if done.error.Some? then Failed(done) else Attempted(done.remote, Some(isNew), None)
  }

  // -------------------------------------------------------- what one attempt preserves

  /** No project has two items, except possibly projects other than the lane's. */
  ghost predicate IsOnce(items: seq<Item>, project: string)
  {
    forall i, j :: 0 <= i < j < |items| ==> items[i].project != project || items[j].project != project
  }

  ghost predicate IsAttached(r: Remote, project: string) { FindItem(r.items, project) < |r.items| }

  /** Item `i` keeps its project and every set field; another project's item keeps everything. */
  ghost predicate ItemStands(lane: Lane, r: Remote, t: Remote, i: nat)
    requires i < |r.items| && i < |t.items|
  {
    && t.items[i].project == r.items[i].project
    && (forall f :: f in r.items[i].fields ==> f in t.items[i].fields && t.items[i].fields[f] == r.items[i].fields[f])
    && (r.items[i].project != lane.project ==> t.items[i] == r.items[i])
  }

  /**
  Nothing set before is changed: items stay where they are, only unset lane
  fields and a missing type are written.
   */
  ghost predicate Preserves(lane: Lane, r: Remote, t: Remote)
  {
    && t.issueExists == r.issueExists
    && |r.items| <= |t.items|
    && (forall i: nat :: i < |r.items| ==> ItemStands(lane, r, t, i))
    && (!NeedsType(r) ==> t.issueType == r.issueType)
    && r.labels <= t.labels <= r.labels + {lane.provenance}
    && r.repoLabels <= t.repoLabels <= r.repoLabels + {lane.provenance}
  }

  /** Status, priority and type are set and the label is on. */
  ghost predicate IsComplete(lane: Lane, r: Remote)
  {
    && IsAttached(r, lane.project)
    && (var item := r.items[FindItem(r.items, lane.project)];
        lane.readyField in item.fields && lane.priorityField in item.fields)
    && r.issueType.Some? && lane.provenance in r.labels
    && (lane.itemType != "" ==> !NeedsType(r))
  }

  lemma {:induction false} FindItemIs(items: seq<Item>, project: string, k: nat)
    requires k <= |items| && (k < |items| ==> items[k].project == project)
    requires forall i :: 0 <= i < k ==> items[i].project != project
    ensures FindItem(items, project) == k
  {
    if items != [] && k > 0 { FindItemIs(items[1..], project, k - 1); }
  }

  lemma SelectEffect(lane: Lane, r: Remote, k: nat, field: string, value: string, write: Fault, read: Fault)
    requires k < |r.items|
    ensures var o := SetSingleSelect(lane, r, k, field, value, write, read);
            && (o.remote == r || o.remote == WithField(r, k, field, value))
            && (o.error.None? ==> o.remote == WithField(r, k, field, value))
            && o.error != Some(VerificationFailed)
  {
  }

  /** Only the lane's own item changed, and nothing that was set in it. */
  ghost predicate FieldsOnly(r: Remote, t: Remote, k: nat)
  {
    && k < |r.items| == |t.items| && t == r.(items := r.items[k := t.items[k]])
    && t.items[k].project == r.items[k].project && t.items[k].otherValues == r.items[k].otherValues
    && forall f :: f in r.items[k].fields ==> f in t.items[k].fields && t.items[k].fields[f] == r.items[k].fields[f]
  }

  lemma EnsureFieldsEffect(lane: Lane, r: Remote, k: nat, isNew: bool, faults: Faults)
    requires k < |r.items| && (isNew ==> r.items[k].fields == map[])
    ensures var o := EnsureFields(lane, r, k, isNew, faults);
            && FieldsOnly(r, o.remote, k)
            && o.error != Some(VerificationFailed)
            && (o.error.None? ==>
                  lane.readyField in o.remote.items[k].fields && lane.priorityField in o.remote.items[k].fields)
  {
    SelectEffect(lane, r, k, lane.readyField, lane.status, faults.statusWrite, faults.statusRead);
    var status := if isNew || lane.readyField !in r.items[k].fields
                  then SetSingleSelect(lane, r, k, lane.readyField, lane.status, faults.statusWrite, faults.statusRead)
                  else Outcome(r, None);
    SelectEffect(lane, status.remote, k, lane.priorityField, lane.priority, faults.priorityWrite, faults.priorityRead);
    assert r.items[k := r.items[k]] == r.items;
  }

  /** Only a missing type and the lane's label are written after the fields. */
  ghost predicate TailOnly(lane: Lane, r: Remote, t: Remote, needsType: bool)
  {
    && t.items == r.items && t.issueExists == r.issueExists
    && (t.issueType == r.issueType || (needsType && t.issueType == Some(lane.itemType)))
    && r.labels <= t.labels <= r.labels + {lane.provenance}
    && r.repoLabels <= t.repoLabels <= r.repoLabels + {lane.provenance}
  }

  lemma LabelEffect(lane: Lane, r: Remote, faults: Faults)
    ensures var o := ApplyLabel(lane, r, faults);
            TailOnly(lane, r, o.remote, false) && (o.error.None? ==> lane.provenance in o.remote.labels)
            && o.error != Some(VerificationFailed)
  {
  }

  lemma TypeAndLabelEffect(lane: Lane, r: Remote, needsType: bool, faults: Faults)
    ensures var o := TypeAndLabel(lane, r, needsType, faults);
            && TailOnly(lane, r, o.remote, needsType) && o.error != Some(VerificationFailed)
            && (o.error.None? ==>
                  (needsType ==> o.remote.issueType == Some(lane.itemType)) && lane.provenance in o.remote.labels)
  {
    var typed := if needsType then SetIssueType(lane, r, faults) else Outcome(r, None);
    if typed.error.None? { LabelEffect(lane, typed.remote, faults); }
  }

  lemma CompleteEffect(lane: Lane, r: Remote, k: nat, isNew: bool, needsType: bool, faults: Faults)
    requires k < |r.items| && (isNew ==> r.items[k].fields == map[])
    ensures var o := Complete(lane, r, k, isNew, needsType, faults);
            var f := EnsureFields(lane, r, k, isNew, faults);
            && FieldsOnly(r, f.remote, k) && TailOnly(lane, f.remote, o.remote, needsType)
            && o.error != Some(VerificationFailed)
            && (o.error.None? ==>
                  && lane.readyField in o.remote.items[k].fields && lane.priorityField in o.remote.items[k].fields
                  && (needsType ==> o.remote.issueType == Some(lane.itemType)) && lane.provenance in o.remote.labels)
  {
    EnsureFieldsEffect(lane, r, k, isNew, faults);
    TypeAndLabelEffect(lane, EnsureFields(lane, r, k, isNew, faults).remote, needsType, faults);
  }

  /** Finding the item, or adding it, touches nothing else. */
  lemma EnsureItemEffect(lane: Lane, r: Remote, faults: Faults)
    ensures var o := EnsureItem(lane, r, faults);
            && (o.remote == r
                || (!IsAttached(r, lane.project) && o.remote == r.(items := r.items + [Item(lane.project, map[], 0)])))
            && (o.error.None? ==> IsAttached(o.remote, lane.project))
            && (IsAttached(r, lane.project) ==> o.remote == r)
            && (o.error.None? && !IsAttached(r, lane.project) ==>
                  FindItem(o.remote.items, lane.project) == |r.items| && |o.remote.items| == |r.items| + 1)
            && o.error != Some(VerificationFailed)
  {
    var more := r.items + [Item(lane.project, map[], 0)];
    if !IsAttached(r, lane.project) { FindItemIs(more, lane.project, |r.items|); }
  }

  /** The board after the item was found or added. */
  ghost predicate ItemIsThere(lane: Lane, r: Remote, a: Remote, k: nat)
  {
    && k < |a.items| && a.items[k].project == lane.project && k == FindItem(a.items, lane.project)
    && (a == r || (k == |r.items| && a == r.(items := r.items + [Item(lane.project, map[], 0)])))
  }

  lemma StagesPreserve(lane: Lane, r: Remote, a: Remote, f: Remote, t: Remote, k: nat)
    requires ItemIsThere(lane, r, a, k) && FieldsOnly(a, f, k) && TailOnly(lane, f, t, NeedsType(r))
    ensures Preserves(lane, r, t) && |t.items| == |a.items|
    ensures FindItem(t.items, lane.project) == k
  {
    forall i: nat | i < |r.items| ensures ItemStands(lane, r, t, i) {
      assert a.items[i] == r.items[i];
      if i != k { assert t.items[i] == a.items[i]; }
    }
    forall i: nat | i < k ensures t.items[i].project != lane.project {
      assert t.items[i] == a.items[i];
    }
    FindItemIs(t.items, lane.project, k);
  }

  lemma AddedPreserves(lane: Lane, r: Remote, faults: Faults)
    ensures Preserves(lane, r, EnsureItem(lane, r, faults).remote)
  {
    EnsureItemEffect(lane, r, faults);
  }

  /** What an attempt answers: an added item is reported once, and an `Ok` means the item is complete. */
  ghost predicate IsAttempt(lane: Lane, r: Remote, t: Attempted)
  {
    && Preserves(lane, r, t.remote)
    && |t.remote.items| <= |r.items| + (if IsAttached(r, lane.project) then 0 else 1)
    && (|t.remote.items| > |r.items| ==> t.remote.items[|r.items|].project == lane.project)
    && (t.result.Some? ==> IsComplete(lane, t.remote) && t.result.value == !IsAttached(r, lane.project))
    && (t.result.Some? <==> t.error.None?) && t.error != Some(VerificationFailed)
  }

  lemma CompletedIsAttempt(lane: Lane, r: Remote, faults: Faults)
    requires EnsureItem(lane, r, faults).error.None?
    ensures IsAttempt(lane, r, Attempt(lane, r, faults))
  {
    EnsureItemEffect(lane, r, faults);
    AddedPreserves(lane, r, faults);
    var a := EnsureItem(lane, r, faults).remote;
    var isNew := FindItem(r.items, lane.project) == |r.items|;
    var k := FindItem(a.items, lane.project);
    if !isNew && ReadFields(a.items[k], faults.readFields).Some? {
      assert Attempt(lane, r, faults) == Attempted(a, None, ReadFields(a.items[k], faults.readFields));
    } else {
      var f := EnsureFields(lane, a, k, isNew, faults).remote;
      var o := Complete(lane, a, k, isNew, NeedsType(r), faults);
      assert Attempt(lane, r, faults) == if o.error.Some? then Failed(o) else Attempted(o.remote, Some(isNew), None);
      CompleteEffect(lane, a, k, isNew, NeedsType(r), faults);
      StagesPreserve(lane, r, a, f, o.remote, k);
    }
  }

  /**
  Whatever fails, and before or after it took effect: no duplicate item
  appears, nothing that was set is overwritten, `true` means this attempt added
  the item, the read-back never contradicts the write, and an `Ok` attempt
  leaves status, priority, type and label in place.
   */
  lemma AttemptIsSafe(lane: Lane, r: Remote, faults: Faults)
    ensures IsAttempt(lane, r, Attempt(lane, r, faults))
    ensures IsOnce(r.items, lane.project) ==> IsOnce(Attempt(lane, r, faults).remote.items, lane.project)
  {
    EnsureItemEffect(lane, r, faults);
    AddedPreserves(lane, r, faults);
    if EnsureItem(lane, r, faults).error.None? { CompletedIsAttempt(lane, r, faults); }
    if IsOnce(r.items, lane.project) { StaysOnce(lane, r, Attempt(lane, r, faults)); }
  }

  /** An accepted write of the fields leaves what the lane asks for wherever nothing was set; the priority is last. */
  lemma FieldsAreWritten(lane: Lane, r: Remote, k: nat, isNew: bool, faults: Faults)
    requires k < |r.items| && (isNew ==> r.items[k].fields == map[])
    requires EnsureFields(lane, r, k, isNew, faults).error.None?
    ensures var t := EnsureFields(lane, r, k, isNew, faults).remote;
            k < |t.items| && WritesLane(lane, r.items[k].fields, t.items[k].fields)
  {
    SelectEffect(lane, r, k, lane.readyField, lane.status, faults.statusWrite, faults.statusRead);
    var status := if isNew || lane.readyField !in r.items[k].fields
                  then SetSingleSelect(lane, r, k, lane.readyField, lane.status, faults.statusWrite, faults.statusRead)
                  else Outcome(r, None);
    SelectEffect(lane, status.remote, k, lane.priorityField, lane.priority, faults.priorityWrite, faults.priorityRead);
  }

  /** Unset fields get the lane's values; one field for both gets the priority. */
  ghost predicate WritesLane(lane: Lane, before: map<string, string>, after: map<string, string>)
  {
    && lane.readyField in after && lane.priorityField in after
    && (lane.priorityField !in before ==> after[lane.priorityField] == lane.priority)
    && (lane.readyField !in before && lane.readyField != lane.priorityField ==> after[lane.readyField] == lane.status)
    && (lane.readyField in before ==> after[lane.readyField] == before[lane.readyField])
    && (lane.priorityField in before ==> after[lane.priorityField] == before[lane.priorityField])
  }

  /** The set fields of the project's item, or none where it is not attached. */
  function FieldsOn(r: Remote, project: string): map<string, string>
  {
    var k := FindItem(r.items, project);
    if k < |r.items| then r.items[k].fields else map[]
  }

  /** `Ok` means that the attempt wrote the lane's status, priority and type exactly where nothing was set. */
  lemma OkWroteTheLane(lane: Lane, r: Remote, faults: Faults)
    requires Attempt(lane, r, faults).result.Some?
    ensures var t := Attempt(lane, r, faults).remote;
            && WritesLane(lane, FieldsOn(r, lane.project), FieldsOn(t, lane.project))
            && t.issueType == (if r.issueType in {None, Some("")} then Some(lane.itemType) else r.issueType)
            && lane.provenance in t.labels
  {
    EnsureItemEffect(lane, r, faults);
    AddedPreserves(lane, r, faults);
    var a := EnsureItem(lane, r, faults).remote;
    var isNew := FindItem(r.items, lane.project) == |r.items|;
    var k := FindItem(a.items, lane.project);
    CompleteEffect(lane, a, k, isNew, NeedsType(r), faults);
    FieldsAreWritten(lane, a, k, isNew, faults);
    var f := EnsureFields(lane, a, k, isNew, faults).remote;
    var o := Complete(lane, a, k, isNew, NeedsType(r), faults);
    StagesPreserve(lane, r, a, f, o.remote, k);
    assert a.items[k].fields == FieldsOn(r, lane.project);
  }

  lemma StaysOnce(lane: Lane, r: Remote, t: Attempted)
    requires IsAttempt(lane, r, t) && IsOnce(r.items, lane.project)
    ensures IsOnce(t.remote.items, lane.project)
  {
    forall i: nat, j: nat | i < j < |t.remote.items|
      ensures t.remote.items[i].project != lane.project || t.remote.items[j].project != lane.project
    {
      assert ItemStands(lane, r, t.remote, i);
      if j < |r.items| { assert ItemStands(lane, r, t.remote, j); }
    }
  }

  // ------------------------------------------------------------------- convergence

  /** Everything an attempt has to resolve can be resolved. */
  ghost predicate CanSucceed(lane: Lane, r: Remote)
  {
    && SplitsRepo(lane.repo) && r.issueExists && |r.items| <= PROJECT_ITEMS_WINDOW
    && (IsAttached(r, lane.project) ==>
          var item := r.items[FindItem(r.items, lane.project)]; |item.fields| + item.otherValues <= FIELD_VALUES_WINDOW)
    && lane.readyField in lane.options && lane.status in lane.options[lane.readyField]
    && lane.priorityField in lane.options && lane.priority in lane.options[lane.priorityField]
    && lane.itemType in lane.knownTypes
  }

  /** A fault-free attempt on a resolvable board succeeds, whatever earlier attempts left half done. */
  lemma CleanAttemptSucceeds(lane: Lane, r: Remote)
    requires CanSucceed(lane, r)
    ensures Attempt(lane, r, NO_FAULTS).result.Some? && IsComplete(lane, Attempt(lane, r, NO_FAULTS).remote)
  {
    EnsureItemEffect(lane, r, NO_FAULTS);
    AttemptIsSafe(lane, r, NO_FAULTS);
  }

  // ------------------------------------------------------- when an attempt succeeds

  ghost predicate SelectWorks(lane: Lane, field: string, value: string, write: Fault, read: Fault)
  {
    field in lane.options && value in lane.options[field] && write.Clean? && read.Clean?
  }

  ghost predicate FieldsWork(lane: Lane, fields: map<string, string>, faults: Faults)
  {
    && (lane.readyField !in fields ==>
          SelectWorks(lane, lane.readyField, lane.status, faults.statusWrite, faults.statusRead))
    && (lane.priorityField !in fields ==>
          SelectWorks(lane, lane.priorityField, lane.priority, faults.priorityWrite, faults.priorityRead))
  }

  ghost predicate TailWorks(lane: Lane, r: Remote, needsType: bool, faults: Faults)
  {
    && (needsType ==> lane.itemType in lane.knownTypes && faults.typeQuery.Clean? && faults.typeWrite.Clean?)
    && faults.labelQuery.Clean? && faults.labelAdd.Clean?
    && (lane.provenance !in r.repoLabels ==> faults.repoQuery.Clean? && faults.labelCreate.Clean?)
  }

  /** Everything the attempt finds missing can be resolved, nothing is cut off, and every call it needs is clean. */
  ghost predicate CallsWork(lane: Lane, r: Remote, faults: Faults)
  {
    && SplitsRepo(lane.repo) && r.issueExists && |r.items| <= PROJECT_ITEMS_WINDOW
    && faults.ids.Clean? && faults.find.Clean?
    && (if IsAttached(r, lane.project) then
          var item := r.items[FindItem(r.items, lane.project)];
          && faults.readFields.Clean? && |item.fields| + item.otherValues <= FIELD_VALUES_WINDOW
          && FieldsWork(lane, item.fields, faults)
        else faults.add.Clean? && FieldsWork(lane, map[], faults))
    && TailWorks(lane, r, NeedsType(r), faults)
  }

  lemma FieldsSucceed(lane: Lane, r: Remote, k: nat, isNew: bool, faults: Faults)
    requires k < |r.items| && (isNew ==> r.items[k].fields == map[])
    ensures EnsureFields(lane, r, k, isNew, faults).error.None? <==> FieldsWork(lane, r.items[k].fields, faults)
    ensures EnsureFields(lane, r, k, isNew, faults).remote.repoLabels == r.repoLabels
  {
    SelectEffect(lane, r, k, lane.readyField, lane.status, faults.statusWrite, faults.statusRead);
    var status := if isNew || lane.readyField !in r.items[k].fields
                  then SetSingleSelect(lane, r, k, lane.readyField, lane.status, faults.statusWrite, faults.statusRead)
                  else Outcome(r, None);
    SelectEffect(lane, status.remote, k, lane.priorityField, lane.priority, faults.priorityWrite, faults.priorityRead);
  }

  lemma TailSucceeds(lane: Lane, r: Remote, needsType: bool, faults: Faults)
    ensures TypeAndLabel(lane, r, needsType, faults).error.None? <==> TailWorks(lane, r, needsType, faults)
  {
  }

  lemma CompletionSucceeds(lane: Lane, r: Remote, k: nat, isNew: bool, needsType: bool, faults: Faults)
    requires k < |r.items| && (isNew ==> r.items[k].fields == map[])
    ensures Complete(lane, r, k, isNew, needsType, faults).error.None? <==>
            FieldsWork(lane, r.items[k].fields, faults) && TailWorks(lane, r, needsType, faults)
  {
    FieldsSucceed(lane, r, k, isNew, faults);
    TailSucceeds(lane, EnsureFields(lane, r, k, isNew, faults).remote, needsType, faults);
  }

  /**
  An attempt succeeds if and only if everything it needs can be resolved and
  every call it makes is clean; calls it does not need may fail. Otherwise it
  ends in an error: a window that is cut off is never taken for an absent item.
   */
  lemma AttemptSucceedsExactly(lane: Lane, r: Remote, faults: Faults)
    ensures Attempt(lane, r, faults).result.Some? <==> CallsWork(lane, r, faults)
    ensures Attempt(lane, r, faults).result.None? <==> Attempt(lane, r, faults).error.Some?
  {
    EnsureItemEffect(lane, r, faults);
    var added := EnsureItem(lane, r, faults);
    if added.error.None? {
      var k := FindItem(added.remote.items, lane.project);
      CompletionSucceeds(lane, added.remote, k, !IsAttached(r, lane.project), NeedsType(r), faults);
    }
  }

  /** The item still lacks this field: it is not there yet, or the field is not set. */
  ghost predicate Lacks(lane: Lane, r: Remote, field: string)
  {
    !IsAttached(r, lane.project) || field !in r.items[FindItem(r.items, lane.project)].fields
  }

  function ValuesOf(item: Item): nat { |item.fields| + item.otherValues }

  /** The error says what is wrong; a transport error, that a call really failed. */
  ghost predicate IsNamed(lane: Lane, r: Remote, faults: Faults, e: AttachError)
  {
    match e
    case Transport => faults != NO_FAULTS
    case IssueNotFound => !SplitsRepo(lane.repo) || !r.issueExists
    case Truncated =>
      || |r.items| > PROJECT_ITEMS_WINDOW
      || (IsAttached(r, lane.project)
          && ValuesOf(r.items[FindItem(r.items, lane.project)]) > FIELD_VALUES_WINDOW)
    case FieldNotFound =>
      || (Lacks(lane, r, lane.readyField) && lane.readyField !in lane.options)
      || (Lacks(lane, r, lane.priorityField) && lane.priorityField !in lane.options)
    case OptionNotFound =>
      || (lane.readyField in lane.options && lane.status !in lane.options[lane.readyField])
      || (lane.priorityField in lane.options && lane.priority !in lane.options[lane.priorityField])
    case TypeNotFound => NeedsType(r) && lane.itemType !in lane.knownTypes
    case VerificationFailed => false
  }

  lemma FieldErrorsAreNamed(lane: Lane, r: Remote, a: Remote, k: nat, faults: Faults)
    requires ItemIsThere(lane, r, a, k) && FindItem(r.items, lane.project) == k
    ensures var o := EnsureFields(lane, a, k, !IsAttached(r, lane.project), faults);
            o.error.Some? ==> IsNamed(lane, r, faults, o.error.value)
  {
    var isNew := !IsAttached(r, lane.project);
    SelectErrorIs(lane, a, k, lane.readyField, lane.status, faults.statusWrite, faults.statusRead);
    var status := if isNew || lane.readyField !in a.items[k].fields
                  then SetSingleSelect(lane, a, k, lane.readyField, lane.status, faults.statusWrite, faults.statusRead)
                  else Outcome(a, None);
    SelectErrorIs(lane, status.remote, k, lane.priorityField, lane.priority, faults.priorityWrite,
                  faults.priorityRead);
  }

  lemma SelectErrorIs(lane: Lane, r: Remote, k: nat, field: string, value: string, write: Fault, read: Fault)
    requires k < |r.items|
    ensures var o := SetSingleSelect(lane, r, k, field, value, write, read);
            && k < |o.remote.items|
            && (o.error.Some? ==>
                  match o.error.value
                  case FieldNotFound => field !in lane.options
                  case OptionNotFound => field in lane.options && value !in lane.options[field]
                  case Transport => !(write.Clean? && read.Clean?)
                  case _ => false)
  {
  }

  lemma TailErrorsAreNamed(lane: Lane, r: Remote, t: Remote, faults: Faults)
    ensures var o := TypeAndLabel(lane, t, NeedsType(r), faults);
            o.error.Some? ==> IsNamed(lane, r, faults, o.error.value)
  {
  }

  /** Every error of an attempt names its reason; without a failed call none of them is a transport error. */
  lemma ErrorsAreNamed(lane: Lane, r: Remote, faults: Faults)
    requires Attempt(lane, r, faults).error.Some?
    ensures IsNamed(lane, r, faults, Attempt(lane, r, faults).error.value)
  {
    EnsureItemEffect(lane, r, faults);
    var added := EnsureItem(lane, r, faults);
    if added.error.None? {
      var k, isNew := FindItem(added.remote.items, lane.project), !IsAttached(r, lane.project);
      FieldErrorsAreNamed(lane, r, added.remote, k, faults);
      TailErrorsAreNamed(lane, r, EnsureFields(lane, added.remote, k, isNew, faults).remote, faults);
    }
  }

  /**
  A complete item is left exactly as it is, and no attempt reports it as new.
  The one thing an attempt may add is the lane's label to the repository's
  list, where the issue carries it and the list lacks it.
   */
  lemma CompleteIsStable(lane: Lane, r: Remote, faults: Faults)
    requires IsComplete(lane, r)
    ensures var t := Attempt(lane, r, faults);
            && t.remote == r.(repoLabels := t.remote.repoLabels) && t.result != Some(true)
            && r.repoLabels <= t.remote.repoLabels <= r.repoLabels + {lane.provenance}
            && (lane.provenance in r.repoLabels ==> t.remote == r)
  {
    AttemptIsSafe(lane, r, faults);
    CompleteKeepsFields(lane, r, FindItem(r.items, lane.project), NeedsType(r), faults);
  }

  lemma CompleteKeepsFields(lane: Lane, r: Remote, k: nat, needsType: bool, faults: Faults)
    requires k < |r.items| && lane.provenance in r.labels && (needsType ==> r.issueType == Some(lane.itemType))
    requires lane.readyField in r.items[k].fields && lane.priorityField in r.items[k].fields
    ensures var o := Complete(lane, r, k, false, needsType, faults); o.remote == r.(repoLabels := o.remote.repoLabels)
  {
    assert r.labels + {lane.provenance} == r.labels;
  }

  // ------------------------------------------------------------ a history of attempts

  /** One round: the board as other parties left it, then an attempt. */
  datatype Round = Round(edited: Remote, faults: Faults)

  /** The board after the rounds. */
  function After(lane: Lane, start: Remote, rounds: seq<Round>): Remote
  {
    if rounds == [] then start
    else Attempt(lane, rounds[|rounds| - 1].edited, rounds[|rounds| - 1].faults).remote
  }

  function ResultOf(lane: Lane, round: Round): Option<bool> { Attempt(lane, round.edited, round.faults).result }

  /** How many items of the project the issue has. */
  function Items(items: seq<Item>, project: string): nat
  {
    if items == [] then 0
    else Items(items[..|items| - 1], project) + if items[|items| - 1].project == project then 1 else 0
  }

  /** Other parties may edit anything and remove items, but add none where one already is. */
  ghost predicate AddsNoSecond(lane: Lane, r: Remote, t: Remote)
  {
    Items(t.items, lane.project) <= Max(1, Items(r.items, lane.project))
  }

  ghost predicate EditsAddNoSecond(lane: Lane, start: Remote, rounds: seq<Round>)
  {
    forall k :: 0 <= k < |rounds| ==> AddsNoSecond(lane, After(lane, start, rounds[..k]), rounds[k].edited)
  }

  lemma {:induction false} ItemsAreSame(a: seq<Item>, b: seq<Item>, project: string)
    requires |a| == |b| && forall i :: 0 <= i < |a| ==> a[i].project == b[i].project
    ensures Items(a, project) == Items(b, project)
  {
    if a != [] { ItemsAreSame(a[..|a| - 1], b[..|b| - 1], project); }
  }

  lemma {:induction false} NoItemsFound(items: seq<Item>, project: string)
    ensures Items(items, project) == 0 <==> FindItem(items, project) == |items|
  {
    if items != [] {
      var init := items[..|items| - 1];
      NoItemsFound(init, project);
      if FindItem(items, project) == |items| {
        FindItemIs(init, project, |init|);
      }
      if FindItem(init, project) == |init| && items[|init|].project != project {
        FindItemIs(items, project, |items|);
      }
      if FindItem(init, project) < |init| { assert items[FindItem(init, project)].project == project; }
    }
  }

  /** An attempt never raises the number of the lane's items above one, nor above what it found. */
  lemma AttemptAddsNoSecond(lane: Lane, r: Remote, faults: Faults)
    ensures var t := Attempt(lane, r, faults).remote;
            Items(t.items, lane.project) <= Max(1, Items(r.items, lane.project))
  {
    AttemptIsSafe(lane, r, faults);
    var t := Attempt(lane, r, faults).remote;
    forall i: nat | i < |r.items| ensures t.items[i].project == r.items[i].project {
      assert ItemStands(lane, r, t, i);
    }
    NoItemsFound(r.items, lane.project);
    OneMoreItem(r.items, t.items, lane.project);
  }

  /** Appending one item where there was none makes one. */
  lemma OneMoreItem(items: seq<Item>, more: seq<Item>, project: string)
    requires |items| <= |more| <= |items| + (if Items(items, project) == 0 then 1 else 0)
    requires forall i: nat :: i < |items| ==> more[i].project == items[i].project
    ensures Items(more, project) <= Max(1, Items(items, project))
  {
    ItemsAreSame(more[..|items|], items, project);
    if |more| == |items| { assert more[..|items|] == more; }
    else { assert more[..|more| - 1] == more[..|items|]; }
  }

  /**
  Over every history of attempts, in which other parties may also remove the
  item, the issue never has more items on the project than one, or than it had
  at the start.
   */
  lemma {:induction false} HistoryIsOnce(lane: Lane, start: Remote, rounds: seq<Round>)
    requires EditsAddNoSecond(lane, start, rounds)
    ensures Items(After(lane, start, rounds).items, lane.project) <= Max(1, Items(start.items, lane.project))
  {
    if rounds != [] {
      var init, last := rounds[..|rounds| - 1], rounds[|rounds| - 1];
      forall k | 0 <= k < |init| ensures AddsNoSecond(lane, After(lane, start, init[..k]), init[k].edited) {
        assert init[..k] == rounds[..k];
      }
      HistoryIsOnce(lane, start, init);
      assert AddsNoSecond(lane, After(lane, start, init), last.edited);
      AttemptAddsNoSecond(lane, last.edited, last.faults);
    }
  }

  /** Before round `i` someone took the item off the board. */
  ghost predicate Detaches(lane: Lane, start: Remote, rounds: seq<Round>, i: nat)
    requires i < |rounds|
  {
    IsAttached(After(lane, start, rounds[..i]), lane.project) && !IsAttached(rounds[i].edited, lane.project)
  }

  lemma PresentIsFound(items: seq<Item>, project: string, k: nat)
    requires k < |items| && items[k].project == project
    ensures FindItem(items, project) <= k
  {
  }

  lemma AttachedStays(lane: Lane, r: Remote, t: Attempted)
    requires IsAttempt(lane, r, t) && IsAttached(r, lane.project)
    ensures IsAttached(t.remote, lane.project)
  {
    var k := FindItem(r.items, lane.project);
    assert ItemStands(lane, r, t.remote, k);
    PresentIsFound(t.remote.items, lane.project, k);
  }

  /** A round ends attached if it began so, or if its attempt succeeded. */
  lemma RoundAttaches(lane: Lane, round: Round)
    requires IsAttached(round.edited, lane.project) || ResultOf(lane, round).Some?
    ensures IsAttached(Attempt(lane, round.edited, round.faults).remote, lane.project)
  {
    AttemptIsSafe(lane, round.edited, round.faults);
    if IsAttached(round.edited, lane.project) {
      AttachedStays(lane, round.edited, Attempt(lane, round.edited, round.faults));
    }
  }

  lemma AfterRound(lane: Lane, start: Remote, rounds: seq<Round>, n: nat)
    requires 0 < n <= |rounds|
    ensures After(lane, start, rounds[..n]) == Attempt(lane, rounds[n - 1].edited, rounds[n - 1].faults).remote
  {
    assert rounds[..n][n - 1] == rounds[n - 1];
  }

  lemma EndsAttached(lane: Lane, start: Remote, rounds: seq<Round>, n: nat)
    requires 0 < n <= |rounds|
    requires IsAttached(rounds[n - 1].edited, lane.project) || ResultOf(lane, rounds[n - 1]).Some?
    ensures IsAttached(After(lane, start, rounds[..n]), lane.project)
  {
    AfterRound(lane, start, rounds, n);
    RoundAttaches(lane, rounds[n - 1]);
  }

  /** After a success the item stays attached as long as nobody takes it off. */
  lemma {:induction false} HistoryStaysAttached(lane: Lane, start: Remote, rounds: seq<Round>, j: nat, n: nat)
    requires j < n <= |rounds| && ResultOf(lane, rounds[j]).Some?
    requires forall i: nat :: j < i < n ==> !Detaches(lane, start, rounds, i)
    ensures IsAttached(After(lane, start, rounds[..n]), lane.project)
    decreases n
  {
    if j < n - 1 {
      HistoryStaysAttached(lane, start, rounds, j, n - 1);
      assert !Detaches(lane, start, rounds, n - 1);
    }
    EndsAttached(lane, start, rounds, n);
  }

  /** Edit `i` took the item off the board, and no edit up to round `k` put it back. */
  ghost predicate TakenOff(lane: Lane, start: Remote, rounds: seq<Round>, i: nat, k: nat)
    requires i <= k < |rounds|
  {
    && Detaches(lane, start, rounds, i)
    && forall m: nat :: i <= m <= k ==> !IsAttached(rounds[m].edited, lane.project)
  }

  /** An item that is missing after a round was missing before it, and its attempt did not succeed. */
  lemma MissingWasMissing(lane: Lane, start: Remote, rounds: seq<Round>, k: nat)
    requires 0 < k < |rounds| && !IsAttached(After(lane, start, rounds[..k]), lane.project)
    ensures !IsAttached(rounds[k - 1].edited, lane.project) && ResultOf(lane, rounds[k - 1]).None?
  {
    if IsAttached(rounds[k - 1].edited, lane.project) || ResultOf(lane, rounds[k - 1]).Some? {
      EndsAttached(lane, start, rounds, k);
    }
  }

  /** The last loss: what was held before some round and is not held from its edit up to edit `k`. */
  lemma {:induction false} LastLoss(before: seq<bool>, edited: seq<bool>, j: nat, k: nat) returns (i: nat)
    requires |before| == |edited| && j < k < |before| && !edited[k]
    requires forall m :: j < m <= k && !before[m] ==> j < m - 1 && !edited[m - 1]
    ensures j < i <= k && before[i] && forall m :: i <= m <= k ==> !edited[m]
    decreases k
  {
    if before[k] { i := k; } else { i := LastLoss(before, edited, j, k - 1); }
  }

  /** Before which rounds the item is attached, and which edits leave it so. */
  ghost predicate IsTimeline(lane: Lane, start: Remote, rounds: seq<Round>, before: seq<bool>, edited: seq<bool>)
  {
    && |before| == |edited| == |rounds|
    && (forall m: nat :: m < |rounds| ==> before[m] == IsAttached(After(lane, start, rounds[..m]), lane.project))
    && (forall m: nat :: m < |rounds| ==> edited[m] == IsAttached(rounds[m].edited, lane.project))
  }

  lemma TimelineExists(lane: Lane, start: Remote, rounds: seq<Round>) returns (before: seq<bool>, edited: seq<bool>)
    ensures IsTimeline(lane, start, rounds, before, edited)
  {
    before := seq(|rounds|, m requires 0 <= m < |rounds| => IsAttached(After(lane, start, rounds[..m]), lane.project));
    edited := seq(|rounds|, m requires 0 <= m < |rounds| => IsAttached(rounds[m].edited, lane.project));
  }

  lemma LossIsOld(lane: Lane, start: Remote, rounds: seq<Round>, before: seq<bool>, edited: seq<bool>, j: nat, m: nat)
    requires IsTimeline(lane, start, rounds, before, edited) && j < m < |rounds| && ResultOf(lane, rounds[j]).Some?
    requires !before[m]
    ensures j < m - 1 && !edited[m - 1]
  {
    MissingWasMissing(lane, start, rounds, m);
  }

  lemma LossIsTakenOff(lane: Lane, start: Remote, rounds: seq<Round>, before: seq<bool>, edited: seq<bool>, i: nat,
                       k: nat)
    requires IsTimeline(lane, start, rounds, before, edited) && i <= k < |rounds|
    requires before[i] && forall m :: i <= m <= k ==> !edited[m]
    ensures TakenOff(lane, start, rounds, i, k)
  {
    assert !edited[i];
  }

  /** An item missing some rounds after a success was taken off in between. */
  lemma MissingWasTakenOff(lane: Lane, start: Remote, rounds: seq<Round>, j: nat, k: nat) returns (i: nat)
    requires j < k < |rounds| && ResultOf(lane, rounds[j]).Some? && !IsAttached(rounds[k].edited, lane.project)
    ensures j < i <= k && TakenOff(lane, start, rounds, i, k)
  {
    var before, edited := TimelineExists(lane, start, rounds);
    forall m: nat | j < m <= k && !before[m] ensures j < m - 1 && !edited[m - 1] {
      LossIsOld(lane, start, rounds, before, edited, j, m);
    }
    i := LastLoss(before, edited, j, k);
    LossIsTakenOff(lane, start, rounds, before, edited, i, k);
  }

  /**
  A later success after a success, with no premise on what other parties do: it
  returns `true` if and only if some edit between the two took the item off the
  board and no further edit put it back.
   */
  lemma TrueMeansDetached(lane: Lane, start: Remote, rounds: seq<Round>, j: nat, k: nat)
    requires j < k < |rounds| && ResultOf(lane, rounds[j]).Some? && ResultOf(lane, rounds[k]).Some?
    ensures ResultOf(lane, rounds[k]) == Some(true) <==>
            exists i: nat :: j < i <= k && TakenOff(lane, start, rounds, i, k)
  {
    AttemptIsSafe(lane, rounds[k].edited, rounds[k].faults);
    if ResultOf(lane, rounds[k]) == Some(true) {
      var i := MissingWasTakenOff(lane, start, rounds, j, k);
    }
  }

  /** So where nobody takes the item off, `true` is returned at most once. */
  lemma TrueAtMostOnce(lane: Lane, start: Remote, rounds: seq<Round>, j: nat, k: nat)
    requires j < k < |rounds| && ResultOf(lane, rounds[j]).Some?
    requires forall i: nat :: j < i <= k ==> !Detaches(lane, start, rounds, i)
    ensures ResultOf(lane, rounds[k]) != Some(true)
  {
    if ResultOf(lane, rounds[k]) == Some(true) { TrueMeansDetached(lane, start, rounds, j, k); }
  }

  /** The history in which it is returned twice: someone removes the item between two clean attempts. */
  lemma TrueTwice(lane: Lane, r: Remote)
    requires CanSucceed(lane, r) && !IsAttached(r, lane.project)
    ensures var rounds := [Round(r, NO_FAULTS), Round(r, NO_FAULTS)];
            && ResultOf(lane, rounds[0]) == Some(true) && ResultOf(lane, rounds[1]) == Some(true)
            && Detaches(lane, r, rounds, 1)
  {
    var rounds := [Round(r, NO_FAULTS), Round(r, NO_FAULTS)];
    CleanAttemptSucceeds(lane, r);
    AttemptIsSafe(lane, r, NO_FAULTS);
    assert rounds[..1] == [Round(r, NO_FAULTS)];
    assert After(lane, r, rounds[..1]) == Attempt(lane, r, NO_FAULTS).remote;
  }

  // -------------------------------------------------------- the client, call by call

  /** The client issues its calls one after the other and stops at the first failure. */
  class BoardClient {
    const lane: Lane
    var remote: Remote

    constructor (lane: Lane, remote: Remote)
      ensures this.lane == lane && this.remote == remote
    {
      this.lane, this.remote := lane, remote;
    }

    /** Sends a mutation; the board changes unless the call failed before it arrived. */
    method Mutate(changed: Remote, fault: Fault) returns (error: Option<AttachError>)
      modifies this
      ensures Outcome(remote, error) == Mutated(old(remote), changed, fault)
    {
      if !fault.FailsBefore? { remote := changed; }
      error := if fault.Clean? then None else Some(Transport);
    }

    method WriteSelect(k: nat, field: string, value: string, write: Fault, read: Fault)
      returns (error: Option<AttachError>)
      requires k < |remote.items|
      modifies this
      ensures Outcome(remote, error) == SetSingleSelect(lane, old(remote), k, field, value, write, read)
    {
      if field !in lane.options { return Some(FieldNotFound); }
      if value !in lane.options[field] { return Some(OptionNotFound); }
      error := Mutate(WithField(remote, k, field, value), write);
      if error.Some? { return; }
      if !read.Clean? { return Some(Transport); }
      var observed := remote.items[k].fields;
      if !(field in observed && observed[field] == value) { return Some(VerificationFailed); }
    }

    method WriteFields(k: nat, isNew: bool, faults: Faults) returns (error: Option<AttachError>)
      requires k < |remote.items|
      modifies this
      ensures Outcome(remote, error) == EnsureFields(lane, old(remote), k, isNew, faults)
    {
      var current := remote.items[k].fields;
      error := None;
      if isNew || lane.readyField !in current {
        SelectEffect(lane, remote, k, lane.readyField, lane.status, faults.statusWrite, faults.statusRead);
        error := WriteSelect(k, lane.readyField, lane.status, faults.statusWrite, faults.statusRead);
        if error.Some? { return; }
      }
      if isNew || lane.priorityField !in current {
        error := WriteSelect(k, lane.priorityField, lane.priority, faults.priorityWrite, faults.priorityRead);
      }
    }

    method WriteTypeAndLabel(needsType: bool, faults: Faults) returns (error: Option<AttachError>)
      modifies this
      ensures Outcome(remote, error) == TypeAndLabel(lane, old(remote), needsType, faults)
    {
      error := None;
      if needsType {
        if !faults.typeQuery.Clean? { return Some(Transport); }
        if lane.itemType !in lane.knownTypes { return Some(TypeNotFound); }
        error := Mutate(remote.(issueType := Some(lane.itemType)), faults.typeWrite);
        if error.Some? { return; }
      }
      if !faults.labelQuery.Clean? { return Some(Transport); }
      if lane.provenance !in remote.repoLabels {
        if !faults.repoQuery.Clean? { return Some(Transport); }
        error := Mutate(remote.(repoLabels := remote.repoLabels + {lane.provenance}), faults.labelCreate);
        if error.Some? { return; }
      }
      error := Mutate(remote.(labels := remote.labels + {lane.provenance}), faults.labelAdd);
    }

    method FindOrAdd(faults: Faults) returns (isNew: bool, error: Option<AttachError>)
      modifies this
      ensures Outcome(remote, error) == EnsureItem(lane, old(remote), faults)
      ensures error.None? ==> isNew == !IsAttached(old(remote), lane.project)
    {
      isNew, error := false, None;
      if !faults.ids.Clean? { return false, Some(Transport); }
      if !SplitsRepo(lane.repo) { return false, Some(IssueNotFound); }
      if !faults.find.Clean? { return false, Some(Transport); }
      if !remote.issueExists { return false, Some(IssueNotFound); }
      if |remote.items| > PROJECT_ITEMS_WINDOW { return false, Some(Truncated); }
      isNew := FindItem(remote.items, lane.project) == |remote.items|;
      if isNew { error := Mutate(remote.(items := remote.items + [Item(lane.project, map[], 0)]), faults.add); }
    }

    /** One attempt; what it guarantees whatever fails is `AttemptIsSafe`. */
    method Attach(faults: Faults) returns (result: Option<bool>, error: Option<AttachError>)
      modifies this
      ensures Attempted(remote, result, error) == Attempt(lane, old(remote), faults)
      ensures IsAttempt(lane, old(remote), Attempted(remote, result, error))
    {
      AttemptIsSafe(lane, remote, faults);
      EnsureItemEffect(lane, remote, faults);
      var needsType := NeedsType(remote);
      var isNew;
      isNew, error := FindOrAdd(faults);
      if error.Some? { return None, error; }
      var k := FindItem(remote.items, lane.project);
      if !isNew {
        error := ReadFields(remote.items[k], faults.readFields);
        if error.Some? { return None, error; }
      }
      error := WriteFields(k, isNew, faults);
      if error.Some? { return None, error; }
      error := WriteTypeAndLabel(needsType, faults);
      result := if error.None? then Some(isNew) else None;
    }
  }
}
