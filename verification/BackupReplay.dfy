/** Backups that an approved reboot interrupts are journaled, stopped and replayed once. All that
    survives the agent lives in one object; each of its methods is one command or one durable
    write and keeps Durable(), which therefore holds wherever the agent or the host dies. */
module BackupReplay {
  import opened Wrappers

  type Upid = nat

  type Arguments = seq<(string, string)>

  /** What a backup asks for: its options in any order, without the quiet flag. */
  function Signature(arguments: Arguments): multiset<(string, string)> {
    if arguments == [] then multiset{}
    else Signature(arguments[1..]) + if arguments[0].0 == "--quiet" then multiset{} else multiset{arguments[0]}
  }

  /** Two requests are the same exactly when they have the same options, quiet aside, each as often. */
  lemma {:induction false} SignatureCounts(arguments: Arguments, option: (string, string))
    ensures Signature(arguments)[option] == if option.0 == "--quiet" then 0 else multiset(arguments)[option]
  {
    if arguments != [] {
      SignatureCounts(arguments[1..], option);
      assert arguments == [arguments[0]] + arguments[1..];
    }
  }

  /** A task of the cluster; active tasks may stop, stopped ones stay as they are. */
  datatype Task = Task(node: string, arguments: Arguments, active: bool, succeeded: bool)

  datatype ItemState = Pending | Submitting | Running | Completed | Failed

  datatype Item = Item(node: string, original: Upid, arguments: Arguments, state: ItemState, replay: Option<Upid>, stopRequested: bool, submittedAt: int)

  /** backup-replay.json */
  datatype Queue = Queue(bootId: nat, execution: nat, resumeAllowed: bool, items: map<Upid, Item>)

  predicate IsOver(item: Item) { item.state.Completed? || item.state.Failed? }

  predicate SameRequest(a: Arguments, b: Arguments) { Signature(a) == Signature(b) }

  /** Only the state, the replay and the stop request of an item change, and never back. */
  predicate Advances(before: Item, after: Item) {
    && after.original == before.original && after.arguments == before.arguments
    && (after.state.Pending? ==> before.state.Pending?)
    && (before.replay.Some? ==> after.replay == before.replay)
  }

  /** Item k of the older queue lives on in the newer one, itself or as its interrupted replay. */
  predicate LivesOn(k: Upid, before: map<Upid, Item>, after: map<Upid, Item>)
    requires k in before
  {
    if k in after then Advances(before[k], after[k])
    else before[k].replay.Some? && before[k].replay.value in after && SameRequest(before[k].arguments, after[before[k].replay.value].arguments)
  }

  /** An item is about a known task, and its replay is a task that asks for the same. */
  predicate ItemFits(k: Upid, item: Item, tasks: map<Upid, Task>, submitted: set<Upid>) {
    && item.original == k && k in tasks && item.arguments == tasks[k].arguments
    && (item.state.Pending? || item.state.Submitting? ==> item.replay.None?)
    && (item.state.Running? ==> item.replay.Some?)
    && (!item.state.Pending? ==> !tasks[k].active)
    && (item.state.Pending? ==> k !in submitted)
    && (item.replay.Some? ==> item.replay.value in tasks && SameRequest(item.arguments, tasks[item.replay.value].arguments))
  }

  predicate ItemsFit(items: map<Upid, Item>, tasks: map<Upid, Task>, submitted: set<Upid>) {
    forall k | k in items :: ItemFits(k, items[k], tasks, submitted)
  }

  predicate FitsIn(queue: Queue, tasks: map<Upid, Task>, submitted: set<Upid>) {
    queue.items != map[] && ItemsFit(queue.items, tasks, submitted)
  }

  predicate SameHeader(a: Queue, b: Queue) {
    a.bootId == b.bootId && a.execution == b.execution && a.resumeAllowed == b.resumeAllowed
  }

  /** The newer queue differs in item k only. */
  predicate OnlyItem(before: Queue, after: Queue, k: Upid) {
    k in before.items && k in after.items && after == before.(items := before.items[k := after.items[k]]) && Advances(before.items[k], after.items[k])
  }

  /** Tasks start and stop, and stay as they are once stopped. */
  predicate Later(before: map<Upid, Task>, after: map<Upid, Task>) {
    forall u | u in before ::
      u in after && after[u].arguments == before[u].arguments && after[u].node == before[u].node && (!before[u].active ==> after[u] == before[u])
  }

  lemma ItemsFitLater(items: map<Upid, Item>, before: map<Upid, Task>, after: map<Upid, Task>, submitted: set<Upid>)
    requires ItemsFit(items, before, submitted) && Later(before, after)
    ensures ItemsFit(items, after, submitted)
  {
    hide SameRequest;
    assert forall k | k in items :: ItemFits(k, items[k], before, submitted);
  }

  lemma FitsLater(queue: Queue, before: map<Upid, Task>, after: map<Upid, Task>, submitted: set<Upid>)
    requires FitsIn(queue, before, submitted) && Later(before, after)
    ensures FitsIn(queue, after, submitted)
  {
    ItemsFitLater(queue.items, before, after, submitted);
  }

  /** An item whose replay stopped is completed or failed as the replay was; otherwise it waits. */
  function ReplayOutcome(queue: Queue, k: Upid, tasks: map<Upid, Task>): Queue
    requires k in queue.items && queue.items[k].replay.Some? && queue.items[k].replay.value in tasks
  {
    var task := tasks[queue.items[k].replay.value];
    if task.active then queue
    else queue.(items := queue.items[k := queue.items[k].(state := if task.succeeded then Completed else Failed)])
  }

  datatype Lookup = Lookup(node: string, since: int, listing: seq<Upid>)

  /** What a listed task must be like to count as the replay of an item. */
  predicate IsReplayOf(candidate: Upid, item: Item, tasks: map<Upid, Task>) {
    candidate in tasks && candidate != item.original && SameRequest(tasks[candidate].arguments, item.arguments)
  }

  predicate NoneFits(item: Item, listed: seq<Upid>, tasks: map<Upid, Task>) {
    forall u | u in listed :: u in tasks && !IsReplayOf(u, item, tasks)
  }

  /** The item runs as one of the listed tasks that asks for the same. */
  predicate IsMatched(before: Item, after: Item, listed: seq<Upid>, tasks: map<Upid, Task>) {
    && after.replay.Some? && after == before.(replay := after.replay, state := Running)
    && after.replay.value in listed && IsReplayOf(after.replay.value, before, tasks)
  }

  /** A listed task other than the original one that asks for what the item asks for. */
  predicate Asks(u: Upid, item: Item, tasks: map<Upid, Task>) {
    u in tasks && u != item.original && Signature(tasks[u].arguments) == Signature(item.arguments)
  }

  /** The history was looked through from the submission on: the item runs as a listed task that asks
      for the same, or no listed task does. */
  predicate Resolved(before: Item, after: Item, tasks: map<Upid, Task>, looked: map<Upid, Lookup>) {
    && before.original in looked && looked[before.original].node == before.node && looked[before.original].since == before.submittedAt
    && var listing := looked[before.original].listing;
       if after == before then forall u | u in listing :: u in tasks && !Asks(u, before, tasks)
       else
         && after.replay.Some? && after == before.(replay := after.replay, state := Running)
         && after.replay.value in listing && Asks(after.replay.value, before, tasks)
  }

  /** What a completed step makes of an item. A stopped item that is to be submitted stays as it is
      only when something is in the way. */
  predicate Stepped(before: Item, after: Item, tasks: map<Upid, Task>, looked: map<Upid, Lookup>, submitted: set<Upid>, hindered: bool) {
    if before.state.Completed? || before.state.Failed? then after == before
    else if before.replay.Some? then
      && before.replay.value in tasks
      && var task := tasks[before.replay.value];
         after == if task.active then before else before.(state := if task.succeeded then Completed else Failed)
    else if before.state.Submitting? then Resolved(before, after, tasks, looked)
    else
      && before.original in tasks
      && var task := tasks[before.original];
         if task.active then after == before
         else if task.succeeded then after == before.(state := Completed)
         else (hindered && after == before) ||
              (after == before.(state := Submitting, submittedAt := after.submittedAt) && before.original in submitted)
  }

  /** What an unhindered run made of an item, told by the tasks at its start and at its end. */
  predicate Advanced(before: Item, after: Item, start: map<Upid, Task>, tasks: map<Upid, Task>, looked: map<Upid, Lookup>, submitted: set<Upid>) {
    if before.state.Completed? || before.state.Failed? then after == before
    else if before.replay.Some? then
      && (before.replay.value in start && !start[before.replay.value].active ==>
            after.state == if start[before.replay.value].succeeded then Completed else Failed)
      && (after == before ||
            (before.replay.value in tasks && !tasks[before.replay.value].active &&
             after == before.(state := if tasks[before.replay.value].succeeded then Completed else Failed)))
    else if before.state.Submitting? then Resolved(before, after, tasks, looked)
    else
      && (before.original in start && !start[before.original].active ==>
            if start[before.original].succeeded then after.state.Completed? else after.state.Submitting?)
      && (after == before ||
            (before.original in tasks && !tasks[before.original].active &&
             if tasks[before.original].succeeded then after == before.(state := Completed)
             else after == before.(state := Submitting, submittedAt := after.submittedAt) && before.original in submitted))
  }

  lemma FoundIsMatched(item: Item, found: Upid, listed: seq<Upid>, tasks: map<Upid, Task>)
    requires found in listed && IsReplayOf(found, item, tasks) && item.replay.None?
    ensures IsMatched(item, item.(replay := Some(found), state := Running), listed, tasks)
    ensures item.(replay := Some(found), state := Running) != item
  {
  }

  lemma FinishedIsStepped(queue: Queue, k: Upid, q: Queue, tasks: map<Upid, Task>, looked: map<Upid, Lookup>, submitted: set<Upid>, hindered: bool)
    requires k in queue.items && !IsOver(queue.items[k]) && queue.items[k].replay.Some? && queue.items[k].replay.value in tasks
    requires q == ReplayOutcome(queue, k, tasks)
    ensures k in q.items && Stepped(queue.items[k], q.items[k], tasks, looked, submitted, hindered)
  {
  }

  lemma ReconciledIsStepped(before: Item, after: Item, listed: seq<Upid>, tasks: map<Upid, Task>, looked: map<Upid, Lookup>,
                            submitted: set<Upid>, hindered: bool)
    requires before.state.Submitting? && before.replay.None?
    requires before.original in looked && looked[before.original] == Lookup(before.node, before.submittedAt, listed)
    requires if after == before then NoneFits(before, listed, tasks) else IsMatched(before, after, listed, tasks)
    ensures Stepped(before, after, tasks, looked, submitted, hindered)
  {
    hide Signature;
  }

  lemma WaitedIsStepped(before: Queue, after: Queue, k: Upid, tasks: map<Upid, Task>, looked: map<Upid, Lookup>, submitted: set<Upid>, hindered: bool)
    requires k in before.items && k in after.items && before.items[k].state.Pending? && before.items[k].replay.None? && before.items[k].original == k
    requires Waited(before, after, k, tasks) && k in tasks
    requires after == before ==> tasks[k].active || (hindered && !tasks[k].succeeded)
    requires after.items[k].state.Submitting? ==> k in submitted
    ensures Stepped(before.items[k], after.items[k], tasks, looked, submitted, hindered)
  {
  }

  lemma ResolvedStays(before: Item, after: Item, tasks: map<Upid, Task>, later: map<Upid, Task>, looked: map<Upid, Lookup>)
    requires Resolved(before, after, tasks, looked) && Later(tasks, later)
    ensures Resolved(before, after, later, looked)
  {
    hide Signature;
  }

  lemma SteppedIsAdvanced(before: Item, after: Item, start: map<Upid, Task>, tasks: map<Upid, Task>, looked: map<Upid, Lookup>, submitted: set<Upid>)
    requires Stepped(before, after, tasks, looked, submitted, false) && Later(start, tasks)
    ensures Advanced(before, after, start, tasks, looked, submitted)
  {
    hide Resolved;
  }

  lemma AdvancedStays(before: Item, after: Item, start: map<Upid, Task>, tasks: map<Upid, Task>, later: map<Upid, Task>,
                      looked: map<Upid, Lookup>, looked': map<Upid, Lookup>, submitted: set<Upid>, submitted': set<Upid>)
    requires Advanced(before, after, start, tasks, looked, submitted) && Later(tasks, later) && submitted <= submitted'
    requires before.original in looked ==> before.original in looked' && looked'[before.original] == looked[before.original]
    ensures Advanced(before, after, start, later, looked', submitted')
  {
    if before.state.Submitting? && before.replay.None? {
      assert Resolved(before, after, tasks, looked');
      ResolvedStays(before, after, tasks, later, looked');
    }
    hide Resolved;
  }

  lemma AdvancedSince(before: Item, after: Item, earlier: map<Upid, Task>, start: map<Upid, Task>, tasks: map<Upid, Task>,
                      looked: map<Upid, Lookup>, submitted: set<Upid>)
    requires Advanced(before, after, start, tasks, looked, submitted) && Later(earlier, start)
    ensures Advanced(before, after, earlier, tasks, looked, submitted)
  {
    hide Resolved;
  }

  /** Only item k was looked for. */
  ghost predicate OnlyLooked(before: map<Upid, Lookup>, after: map<Upid, Lookup>, k: Upid) {
    forall j | j != k :: (j in after <==> j in before) && (j in after ==> after[j] == before[j])
  }

  /** Every item but those left has taken its step; those left are as they were. */
  predicate Progressed(items: map<Upid, Item>, after: map<Upid, Item>, left: set<Upid>, start: map<Upid, Task>, tasks: map<Upid, Task>,
                       looked: map<Upid, Lookup>, submitted: set<Upid>) {
    && after.Keys == items.Keys
    && forall k | k in items ::
         if k in left then after[k] == items[k] else Advanced(items[k], after[k], start, tasks, looked, submitted)
  }

  lemma StepProgresses(items: map<Upid, Item>, q: Queue, q': Queue, k: Upid, left: set<Upid>, start: map<Upid, Task>,
                       tasks: map<Upid, Task>, tasks': map<Upid, Task>, looked: map<Upid, Lookup>, looked': map<Upid, Lookup>,
                       submitted: set<Upid>, submitted': set<Upid>)
    requires Progressed(items, q.items, left, start, tasks, looked, submitted) && k in left && k in items
    requires OnlyItem(q, q', k) && Stepped(items[k], q'.items[k], tasks', looked', submitted', false)
    requires Later(start, tasks) && Later(tasks, tasks') && submitted <= submitted' && OnlyLooked(looked, looked', k)
    requires forall j | j in items :: items[j].original == j
    ensures Progressed(items, q'.items, left - {k}, start, tasks', looked', submitted')
  {
    hide Advanced, Stepped, Advances;
    LaterTwice(start, tasks, tasks');
    SteppedIsAdvanced(items[k], q'.items[k], start, tasks', looked', submitted');
    forall j | j in items && j !in left - {k} ensures Advanced(items[j], q'.items[j], start, tasks', looked', submitted') {
      if j != k { AdvancedStays(items[j], q.items[j], start, tasks, tasks', looked, looked', submitted, submitted'); }
    }
  }

  lemma LaterTwice(a: map<Upid, Task>, b: map<Upid, Task>, c: map<Upid, Task>)
    requires Later(a, b) && Later(b, c)
    ensures Later(a, c)
  {
  }

  lemma ProgressedSince(items: map<Upid, Item>, after: map<Upid, Item>, earlier: map<Upid, Task>, start: map<Upid, Task>,
                        tasks: map<Upid, Task>, looked: map<Upid, Lookup>, submitted: set<Upid>)
    requires Progressed(items, after, {}, start, tasks, looked, submitted) && Later(earlier, start)
    ensures Progressed(items, after, {}, earlier, tasks, looked, submitted)
  {
    hide Advanced;
    forall k | k in items ensures Advanced(items[k], after[k], earlier, tasks, looked, submitted) {
      AdvancedSince(items[k], after[k], earlier, start, tasks, looked, submitted);
    }
  }

  /** Every submitting item but those left was looked for; nothing else changed. */
  predicate LookedThrough(items: map<Upid, Item>, after: map<Upid, Item>, left: set<Upid>, tasks: map<Upid, Task>, looked: map<Upid, Lookup>) {
    && after.Keys == items.Keys
    && forall k | k in items ::
         if k !in left && items[k].state.Submitting? then Resolved(items[k], after[k], tasks, looked) else after[k] == items[k]
  }

  lemma LooksThrough(items: map<Upid, Item>, q: Queue, q': Queue, k: Upid, left: set<Upid>, tasks: map<Upid, Task>, tasks': map<Upid, Task>,
                     looked: map<Upid, Lookup>, looked': map<Upid, Lookup>)
    requires LookedThrough(items, q.items, left, tasks, looked) && k in left && k in items && Later(tasks, tasks')
    requires OnlyItem(q, q', k) && OnlyLooked(looked, looked', k) && Resolved(items[k], q'.items[k], tasks', looked')
    requires items[k].state.Submitting? && forall j | j in items :: items[j].original == j
    ensures LookedThrough(items, q'.items, left - {k}, tasks', looked')
  {
    hide Advances;
    forall j | j in items && j !in left && items[j].state.Submitting? ensures Resolved(items[j], q'.items[j], tasks', looked') {
      assert Resolved(items[j], q.items[j], tasks, looked');
      ResolvedStays(items[j], q.items[j], tasks, tasks', looked');
    }
    hide Resolved;
  }

  /** A waiting item goes on only once its original task stopped: completed if that task succeeded
      after all, otherwise to be submitted. */
  predicate Waited(before: Queue, after: Queue, k: Upid, tasks: map<Upid, Task>) {
    after == before ||
    (k in before.items && k in after.items && k in tasks && !tasks[k].active &&
      if tasks[k].succeeded then after.items[k] == before.items[k].(state := Completed)
      else after.items[k] == before.items[k].(state := Submitting, submittedAt := after.items[k].submittedAt))
  }

  /** The item of a backup, or that of its successor, is journaled with an equal request, or over. */
  predicate KeptIn(u: Upid, items: map<Upid, Item>, asked: map<Upid, Arguments>, keeper: map<Upid, Upid>, finished: set<Upid>) {
    && u in asked && u in keeper
    && (keeper[u] in finished || (keeper[u] in items && SameRequest(asked[u], items[keeper[u]].arguments)))
  }

  predicate AllKept(items: map<Upid, Item>, asked: map<Upid, Arguments>, keeper: map<Upid, Upid>, finished: set<Upid>) {
    forall u | u in asked :: KeptIn(u, items, asked, keeper, finished)
  }

  lemma SubmittedFits(queue: Queue, k: Upid, tasks: map<Upid, Task>, submitted: set<Upid>)
    requires FitsIn(queue, tasks, submitted) && k in queue.items && !queue.items[k].state.Pending?
    ensures FitsIn(queue, tasks, submitted + {k})
  {
    hide SameRequest;
    assert forall j | j in queue.items :: ItemFits(j, queue.items[j], tasks, submitted);
  }

  // ----- what an observer of the durable state sees -----

  /** The commands and durable writes that outlive the agent, in their order. A run may be cut off
      after any of them: what is left is a shorter trace. */
  datatype Event =
    | Booted(session: nat)
    | Healthy
    | Listed(running: set<Upid>)
    | Saved(queue: Queue)
    | AskedToStop(k: Upid)
    | Cleared(k: Upid)
    | Submitted(k: Upid)
    | Closed(last: map<Upid, Item>)

  /** begun, wanted: the items that the last write of the journal turned from pending to submitting, and
      those it newly requested to stop, until that is done; running: the last inventory, until something
      is submitted; cleared: the item whose node was last found ready for it. */
  datatype Life = Life(boot: nat, saved: Option<Queue>, running: set<Upid>, begun: set<Upid>, wanted: set<Upid>, cleared: Option<Upid>, submitted: set<Upid>) {
    function Items(): map<Upid, Item> { if saved.Some? then saved.value.items else map[] }
  }

  function Begun(before: map<Upid, Item>, after: map<Upid, Item>): set<Upid> {
    set k | k in before && k in after && before[k].state.Pending? && after[k].state.Submitting?
  }

  function Wanted(before: map<Upid, Item>, after: map<Upid, Item>): set<Upid> {
    set k | k in before && k in after && !before[k].stopRequested && after[k].stopRequested
  }

  function LifeNext(life: Life, e: Event): Life {
    match e
    case Booted(session) => life.(boot := session, cleared := None)
    case Healthy => life
    case Listed(running) => life.(running := running)
    case Saved(queue) =>
      life.(saved := Some(queue),
            begun := Begun(life.Items(), queue.items),
            wanted := Wanted(life.Items(), queue.items))
    case AskedToStop(k) => life.(wanted := life.wanted - {k})
    case Cleared(k) => life.(cleared := Some(k))
    case Submitted(k) => life.(submitted := life.submitted + {k}, begun := life.begun - {k}, cleared := None, running := {})
    case Closed(_) => life.(saved := None, begun := {}, wanted := {})
  }

  function LifeAfter(trace: seq<Event>): Life {
    if trace == [] then Life(0, None, {}, {}, {}, None, {}) else LifeNext(LifeAfter(trace[..|trace| - 1]), trace[|trace| - 1])
  }

  /** A task that was replaced by a submission had stopped, and runs no more. An item enters the
      journal as pending from the inventory, and leaves it by its replay or when all are over. */
  predicate Allowed(life: Life, e: Event) {
    match e
    case Booted(_) | Healthy | Cleared(_) => true
    case Listed(running) => running !! life.submitted
    case Saved(queue) =>
      && (forall k | k in life.Items() :: LivesOn(k, life.Items(), queue.items))
      && (forall k | k in queue.items && k !in life.Items() :: queue.items[k].state.Pending? && k in life.running)
    case AskedToStop(k) => k in life.wanted && k in life.Items() && life.Items()[k].stopRequested
    case Submitted(k) =>
      && k in life.begun && life.cleared == Some(k) && k in life.Items() && life.Items()[k].state.Submitting?
      && (life.saved.value.bootId != life.boot || life.saved.value.resumeAllowed)
    case Closed(last) =>
      life.saved.Some? && forall k | k in life.Items() :: k in last && Advances(life.Items()[k], last[k]) && IsOver(last[k])
  }

  predicate Legal(trace: seq<Event>) {
    trace == [] || (Legal(trace[..|trace| - 1]) && Allowed(LifeAfter(trace[..|trace| - 1]), trace[|trace| - 1]))
  }

  lemma Continued(trace: seq<Event>, e: Event)
    ensures LifeAfter(trace + [e]) == LifeNext(LifeAfter(trace), e)
    ensures Legal(trace + [e]) == (Legal(trace) && Allowed(LifeAfter(trace), e))
  {
    assert (trace + [e])[..|trace|] == trace;
  }

  class Pve {
    var boot: nat
    var tasks: map<Upid, Task>
    var saved: Option<Queue>
    var now: int
    /** Items submitted, tasks asked to stop, and what their items asked for. */
    ghost var submitted: set<Upid>
    ghost var asked: map<Upid, Arguments>
    /** Which item answers for a task that was asked to stop. */
    ghost var keeper: map<Upid, Upid>
    /** Items that were over when the journal was closed. */
    ghost var finished: set<Upid>
    /** The backup history as it was last listed. */
    ghost var listed: seq<Upid>
    /** Where and since when each submitting item was last looked for, and what was listed. */
    ghost var looked: map<Upid, Lookup>
    /** Something could not be read, written or sent, or a check said no. */
    ghost var hindered: bool
    /** What reached the cluster and the journal so far. */
    ghost var trace: seq<Event>

    ghost function Now(): Life
      reads `trace
    {
      LifeAfter(trace)
    }

    ghost predicate Recorded()
      reads `trace, `saved, `boot, `submitted
    {
      Legal(trace) && Now().boot == boot && Now().saved == saved && Now().submitted == submitted
    }

    /** Items new to the journal come from the last inventory. */
    ghost predicate NewOnesListed(queue: Queue)
      reads `saved, `trace
    {
      forall k | k in queue.items && k !in Items() :: queue.items[k].state.Pending? && k in Now().running
    }

    ghost predicate Fits(queue: Queue)
      reads `tasks, `submitted
    {
      FitsIn(queue, tasks, submitted)
    }

    /** The journal may be replaced by this queue without losing an item. */
    ghost predicate Replaces(queue: Queue)
      reads `saved
    {
      saved.Some? ==> forall k | k in saved.value.items :: LivesOn(k, saved.value.items, queue.items)
    }

    ghost function Items(): map<Upid, Item>
      reads `saved
    {
      if saved.Some? then saved.value.items else map[]
    }

    /** Every journaled item is over by now. */
    ghost predicate AllOverIn(queue: Queue)
      reads `saved
    {
      forall k | k in Items() :: k in queue.items && IsOver(queue.items[k])
    }

    ghost predicate Durable()
      reads `boot, `tasks, `saved, `submitted, `asked, `keeper, `finished, `trace
    {
      && Recorded() && (saved.Some? ==> Fits(saved.value))
      && SubmittedStopped() && AskedKept()
    }

    ghost predicate SubmittedStopped()
      reads `submitted, `tasks
    {
      forall u | u in submitted :: u in tasks && !tasks[u].active
    }

    ghost predicate AskedKept()
      reads `saved, `asked, `keeper, `finished
    {
      AllKept(Items(), asked, keeper, finished)
    }

    constructor (boot: nat, tasks: map<Upid, Task>, now: int)
      ensures Durable() && this.boot == boot && this.tasks == tasks && saved.None? && submitted == {} && asked == map[]
    {
      this.boot, this.tasks, this.now, saved := boot, tasks, now, None;
      submitted, asked, keeper, finished, listed, looked, hindered := {}, map[], map[], {}, [], map[], false;
      trace := [Booted(boot)];
      Continued([], Booted(boot));
      assert [] + [Booted(boot)] == [Booted(boot)];
    }

    // ----- the surroundings -----

    /** Tasks start and stop. */
    method Others()
      requires Durable()
      modifies `tasks, `now
      ensures Durable() && Later(old(tasks), tasks) && now >= old(now)
    {
      var rounds, passed := *, *;
      while rounds > 0
        invariant Durable() && Later(old(tasks), tasks) && now == old(now)
        decreases rounds
      {
        StartOrStop();
        rounds := rounds - 1;
      }
      if passed > 0 { now := now + passed; }
    }

    method StartOrStop()
      requires Durable()
      modifies `tasks
      ensures Durable() && Later(old(tasks), tasks)
    {
      hide SameRequest, AskedKept, Recorded;
      var u: Upid, started: Task := *, *;
      if u !in tasks {
        tasks := tasks[u := started];
      } else if tasks[u].active {
        tasks := tasks[u := tasks[u].(active := false, succeeded := started.succeeded)];
      }
    }

    /** The active backups, or nothing when another task is active or the inventory fails. */
    method ActiveBackups() returns (r: Option<seq<Upid>>)
      requires Durable()
      modifies `tasks, `now, `trace, `hindered
      ensures Durable() && Later(old(tasks), tasks) && now >= old(now)
      ensures r.Some? ==> forall u | u in r.value :: u in tasks && tasks[u].active && u in Now().running
      ensures Now().begun == old(Now().begun)
      ensures trace == old(trace) + if r.Some? then [Listed(set u | u in r.value)] else []
      ensures hindered == (old(hindered) || r.None?)
    {
      Others();
      var listed: seq<Upid>, failed: bool := *, *;
      if failed || !(forall u | u in listed :: u in tasks && tasks[u].active) {
        hindered := true;
        return None;
      }
      Continued(trace, Listed(set u | u in listed));
      hide Fits, AskedKept, LivesOn, Legal, LifeAfter;
      trace := trace + [Listed(set u | u in listed)];
      r := Some(listed);
    }

    /** A task's state: None when it cannot be read, else whether it stopped and succeeded. */
    method Status(u: Upid) returns (r: Option<(bool, bool)>)
      requires Durable()
      modifies `tasks, `now, `hindered
      ensures Durable() && Later(old(tasks), tasks) && now >= old(now)
      ensures r.Some? ==> u in tasks && r.value == (!tasks[u].active, tasks[u].succeeded)
      ensures hindered == (old(hindered) || r.None?)
    {
      Others();
      var failed: bool := *;
      if failed || u !in tasks {
        hindered := true;
        return None;
      }
      r := Some((!tasks[u].active, tasks[u].succeeded));
    }

    /** The arguments a task logged. */
    method ArgumentsOf(u: Upid) returns (r: Option<Arguments>)
      requires Durable()
      modifies `tasks, `now, `hindered
      ensures Durable() && Later(old(tasks), tasks) && now >= old(now)
      ensures r.Some? ==> u in tasks && r.value == tasks[u].arguments
      ensures hindered == (old(hindered) || r.None?)
    {
      Others();
      var failed: bool := *;
      if failed || u !in tasks {
        hindered := true;
        return None;
      }
      r := Some(tasks[u].arguments);
    }

    /** A node's recent backup tasks, in which the replay of item k is looked for. */
    method History(node: string, since: int, ghost k: Upid) returns (r: Option<seq<Upid>>)
      requires Durable()
      modifies `tasks, `now, `listed, `hindered, `looked
      ensures Durable() && Later(old(tasks), tasks) && now >= old(now)
      ensures r.Some? ==> listed == r.value && looked == old(looked)[k := Lookup(node, since, r.value)]
      ensures r.None? ==> looked == old(looked)
      ensures hindered == (old(hindered) || r.None?)
    {
      Others();
      r := *;
      hindered := hindered || r.None?;
      if r.Some? { listed, looked := r.value, looked[k := Lookup(node, since, r.value)]; }
    }

    /** A check that passed. */
    ghost method Note(e: Event)
      requires Durable() && (e.Healthy? || e.Cleared?)
      modifies `trace
      ensures Durable() && trace == old(trace) + [e] && Now() == LifeNext(old(Now()), e)
    {
      Continued(trace, e);
      hide Fits, AskedKept, LivesOn, Legal, LifeAfter, SubmittedStopped;
      trace := trace + [e];
    }

    /** The cluster is healthy, and so is this host. */
    method CheckHealth() returns (ok: bool)
      requires Durable()
      modifies `tasks, `now, `trace, `hindered
      ensures Durable() && Later(old(tasks), tasks) && now >= old(now)
      ensures trace == old(trace) + if ok then [Healthy] else []
      ensures hindered == (old(hindered) || !ok)
    {
      hide Durable, Legal, LifeAfter;
      Others();
      ok := *;
      hindered := hindered || !ok;
      if ok { Note(Healthy); }
    }

    /** The node of an item runs no other backup, and its storage is there. */
    method CheckNode(k: Upid) returns (ok: bool)
      requires Durable()
      modifies `tasks, `now, `trace, `hindered
      ensures Durable() && Later(old(tasks), tasks) && now >= old(now)
      ensures trace == old(trace) + if ok then [Cleared(k)] else []
      ensures Now() == old(Now()).(cleared := if ok then Some(k) else old(Now()).cleared)
      ensures hindered == (old(hindered) || !ok)
    {
      hide Durable, Legal, LifeAfter;
      Others();
      ok := *;
      hindered := hindered || !ok;
      if ok { Note(Cleared(k)); }
    }

    // ----- durable writes and commands -----

    lemma CanSave(queue: Queue)
      requires Recorded() && Replaces(queue) && NewOnesListed(queue)
      ensures Legal(trace + [Saved(queue)])
      ensures LifeAfter(trace + [Saved(queue)]) == Life(boot, Some(queue), Now().running, Begun(Items(), queue.items), Wanted(Items(), queue.items), Now().cleared, submitted)
    {
      hide LivesOn;
      Continued(trace, Saved(queue));
    }

    lemma CanBoot(session: nat)
      requires Recorded()
      ensures Legal(trace + [Booted(session)]) && LifeAfter(trace + [Booted(session)]) == LifeNext(Now(), Booted(session))
    {
      Continued(trace, Booted(session));
    }

    lemma CanStop(k: Upid)
      requires Recorded() && saved.Some? && k in saved.value.items && saved.value.items[k].stopRequested && k in Now().wanted
      ensures Legal(trace + [AskedToStop(k)]) && LifeAfter(trace + [AskedToStop(k)]) == Now().(wanted := Now().wanted - {k})
    {
      Continued(trace, AskedToStop(k));
    }

    lemma CanSubmit(k: Upid)
      requires Recorded() && saved.Some? && k in saved.value.items && saved.value.items[k].state.Submitting?
      requires k in Now().begun && Now().cleared == Some(k) && (saved.value.bootId != boot || saved.value.resumeAllowed)
      ensures Legal(trace + [Submitted(k)]) && LifeAfter(trace + [Submitted(k)]).(begun := {}, wanted := {}, running := {}) == Life(boot, saved, {}, {}, {}, None, submitted + {k})
    {
      Continued(trace, Submitted(k));
    }

    lemma CanClose(queue: Queue)
      requires Recorded() && saved.Some? && Replaces(queue) && AllOverIn(queue)
      ensures Legal(trace + [Closed(queue.items)]) && LifeAfter(trace + [Closed(queue.items)]).saved.None?
      ensures LifeAfter(trace + [Closed(queue.items)]).boot == boot && LifeAfter(trace + [Closed(queue.items)]).submitted == submitted
    {
      Continued(trace, Closed(queue.items));
      forall k | k in Items() ensures Advances(Items()[k], queue.items[k]) { assert LivesOn(k, Items(), queue.items); }
    }

    /** The atomic replacement of the journal; a failed one may have happened. */
    method Save(queue: Queue) returns (ok: bool)
      requires Durable() && Fits(queue) && Replaces(queue) && NewOnesListed(queue)
      modifies `saved, `keeper, `trace, `hindered
      ensures Durable() && (if ok then saved == Some(queue) else saved == Some(queue) || saved == old(saved))
      ensures Replaces(queue) && Now().running == old(Now().running) && Now().cleared == old(Now().cleared)
      ensures ok ==> Now().begun == Begun(old(Items()), queue.items) && Now().wanted == Wanted(old(Items()), queue.items)
      ensures trace == old(trace) + [Saved(queue)] || (!ok && saved == old(saved) && trace == old(trace))
      ensures hindered == (old(hindered) || !ok)
    {
      ok := *;
      hindered := hindered || !ok;
      var effect: bool := *;
      if ok || effect {
        CanSave(queue);
        SaveKeeps(queue);
        hide FitsIn, LivesOn, AllKept, Superseded, Heirs, SubmittedStopped, Legal, LifeAfter, Begun, NewOnesListed;
        keeper := Heirs(queue);
        trace := trace + [Saved(queue)];
        saved := Some(queue);
      }
    }

    /** Who answers for each stopped task once the queue is the journal. */
    ghost function Heirs(queue: Queue): map<Upid, Upid>
      reads `saved, `keeper, `finished
    {
      map u | u in keeper :: if Superseded(keeper[u], Items(), queue.items) then Items()[keeper[u]].replay.value else keeper[u]
    }

    lemma SaveKeeps(queue: Queue)
      requires Replaces(queue) && AskedKept()
      ensures AllKept(queue.items, asked, Heirs(queue), finished)
    {
      forall u | u in asked ensures KeptIn(u, queue.items, asked, Heirs(queue), finished) {
        assert KeptIn(u, Items(), asked, keeper, finished);
        if keeper[u] !in finished { assert LivesOn(keeper[u], Items(), queue.items); }
      }
    }

    ghost predicate Superseded(k: Upid, before: map<Upid, Item>, after: map<Upid, Item>)
      reads `finished
    {
      k !in finished && k in before && k !in after && before[k].replay.Some?
    }

    lemma StopKeeps(k: Upid)
      requires AskedKept() && k in Items()
      ensures AllKept(Items(), asked[k := Items()[k].arguments], keeper[k := k], finished)
    {
      var asked', keeper' := asked[k := Items()[k].arguments], keeper[k := k];
      forall u | u in asked' ensures KeptIn(u, Items(), asked', keeper', finished) {
        if u != k { assert KeptIn(u, Items(), asked, keeper, finished); }
      }
    }

    lemma CloseKeeps()
      requires AskedKept()
      ensures AllKept(map[], asked, keeper, finished + Items().Keys)
    {
      forall u | u in asked ensures KeptIn(u, map[], asked, keeper, finished + Items().Keys) {
        assert KeptIn(u, Items(), asked, keeper, finished);
      }
    }

    /** Asks a journaled task to stop. It may have stopped even if the command fails. */
    method Stop(k: Upid) returns (ok: bool)
      requires Durable() && saved.Some? && k in saved.value.items && saved.value.items[k].stopRequested && k in Now().wanted
      modifies `tasks, `now, `asked, `keeper, `trace, `hindered
      ensures Durable() && Later(old(tasks), tasks) && now >= old(now) && Now().running == old(Now()).running
      ensures asked == old(asked)[k := saved.value.items[k].arguments]
      ensures trace == old(trace) + [AskedToStop(k)]
      ensures hindered == (old(hindered) || !ok)
    {
      ok := *;
      hindered := hindered || !ok;
      Ask(k);
      hide Durable, Recorded, AskedKept, Legal, LifeAfter;
      Others();
    }

    ghost method Ask(k: Upid)
      requires Durable() && saved.Some? && k in saved.value.items && saved.value.items[k].stopRequested && k in Now().wanted
      modifies `asked, `keeper, `trace
      ensures Durable() && Now().running == old(Now()).running
      ensures asked == old(asked)[k := saved.value.items[k].arguments] && trace == old(trace) + [AskedToStop(k)]
    {
      CanStop(k);
      StopKeeps(k);
      hide FitsIn, SubmittedStopped, Legal, LifeAfter, AllKept, LifeNext, Allowed, SameRequest;
      trace := trace + [AskedToStop(k)];
      asked := asked[k := saved.value.items[k].arguments];
      keeper := keeper[k := k];
    }

    /** Submits a replay: once per item, never while its reboot is pending in this boot session. */
    method Submit(k: Upid) returns (ok: bool)
      requires Durable() && saved.Some? && k in saved.value.items && saved.value.items[k].state.Submitting?
      requires k !in submitted && k in tasks && !tasks[k].active && k in Now().begun && Now().cleared == Some(k)
      requires saved.value.bootId != boot || saved.value.resumeAllowed
      modifies `tasks, `now, `submitted, `trace, `hindered
      ensures Durable() && Later(old(tasks), tasks) && now >= old(now) && submitted == old(submitted) + {k}
      ensures trace == old(trace) + [Submitted(k)]
      ensures hindered == (old(hindered) || !ok)
    {
      hide FitsIn, AskedKept, Legal, LifeAfter;
      ok := *;
      hindered := hindered || !ok;
      CanSubmit(k);
      SubmittedFits(saved.value, k, tasks, submitted);
      trace := trace + [Submitted(k)];
      submitted := submitted + {k};
      assert Durable();
      hide Durable, Recorded, SubmittedStopped;
      Others();
    }

    /** Removes the journal once every item is over. */
    method Close(queue: Queue) returns (ok: bool)
      requires Durable() && saved.Some? && Replaces(queue) && AllOverIn(queue)
      modifies `saved, `finished, `trace, `hindered
      ensures Durable() && (if ok then saved.None? && finished == old(finished) + old(Items()).Keys else saved == old(saved) && finished == old(finished))
      ensures trace == old(trace) + if ok then [Closed(queue.items)] else []
      ensures hindered == (old(hindered) || !ok)
    {
      ok := *;
      hindered := hindered || !ok;
      if ok {
        CanClose(queue);
        CloseKeeps();
        hide AllOverIn, Replaces, FitsIn, AllKept, SubmittedStopped, Legal, LifeAfter;
        trace := trace + [Closed(queue.items)];
        finished := finished + Items().Keys;
        saved := None;
      }
    }

    /** The host starts again; whoever asks next is in another boot session. */
    method PowerCycle(session: nat)
      requires Durable()
      modifies `boot, `trace
      ensures Durable() && boot == session
      ensures trace == old(trace) + [Booted(session)]
    {
      CanBoot(session);
      hide Legal, LifeAfter, AskedKept, SubmittedStopped, FitsIn;
      trace := trace + [Booted(session)];
      boot := session;
    }

    // ----- the agent -----

    /** The queue in memory fits the journal it was read from or last written to. */
    ghost predicate Session(queue: Queue)
      reads `boot, `tasks, `saved, `submitted, `asked, `keeper, `finished, `trace
    {
      Durable() && Fits(queue) && Replaces(queue) && saved.Some? && SameHeader(saved.value, queue) && queue.items.Keys == saved.value.items.Keys
    }

    lemma ItemReplaces(queue: Queue, q: Queue, k: Upid)
      requires Replaces(queue) && OnlyItem(queue, q, k)
      ensures Replaces(q)
    {
      if saved.Some? {
        forall j | j in saved.value.items ensures LivesOn(j, saved.value.items, q.items) { assert LivesOn(j, saved.value.items, queue.items); }
      }
    }

    /** Changes one item in memory, then in the journal. */
    method SaveItem(queue: Queue, k: Upid, item: Item) returns (q: Queue, ok: bool)
      requires Session(queue) && k in queue.items && Advances(queue.items[k], item) && ItemFits(k, item, tasks, submitted)
      modifies `saved, `keeper, `trace, `hindered
      ensures Session(q) && OnlyItem(queue, q, k) && q.items[k] == item && (ok ==> saved == Some(q))
      ensures saved == old(saved) || saved == Some(q)
      ensures Now().running == old(Now().running) && Now().cleared == old(Now().cleared)
      ensures ok && queue.items[k].state.Pending? && item.state.Submitting? ==> k in Now().begun
      ensures ok && old(saved) == Some(queue) && !queue.items[k].stopRequested && item.stopRequested ==> k in Now().wanted
      ensures old(trace) <= trace
      ensures hindered == (old(hindered) || !ok)
    {
      q := queue.(items := queue.items[k := item]);
      hide Durable, FitsIn, LivesOn, ItemFits, Replaces, NewOnesListed;
      ItemIsReady(queue, q, k);
      ok := Save(q);
    }

    lemma ItemIsReady(queue: Queue, q: Queue, k: Upid)
      requires Session(queue) && OnlyItem(queue, q, k) && ItemFits(k, q.items[k], tasks, submitted)
      ensures Fits(q) && Replaces(q) && NewOnesListed(q)
      ensures queue.items[k].state.Pending? ==> k in Items() && Items()[k].state.Pending?
    {
      ItemReplaces(queue, q, k);
      ItemKeepsFit(queue, q, k);
      if queue.items[k].state.Pending? { PendingWasPending(queue, k); }
    }

    lemma ItemKeepsFit(queue: Queue, q: Queue, k: Upid)
      requires Fits(queue) && OnlyItem(queue, q, k) && ItemFits(k, q.items[k], tasks, submitted)
      ensures Fits(q)
    {
      hide ItemFits;
    }

    lemma PendingWasPending(queue: Queue, k: Upid)
      requires Session(queue) && k in queue.items && queue.items[k].state.Pending?
      ensures Items()[k].state.Pending?
    {
      hide Durable, FitsIn;
      assert LivesOn(k, Items(), queue.items);
    }

    /** One step for item k: at most that item changes, in memory and, when the step succeeds, in the
        journal. */
    twostate predicate Steps(queue: Queue, q: Queue, k: Upid, ok: bool)
      reads this
    {
      && Session(q) && OnlyItem(queue, q, k) && Later(old(tasks), tasks) && old(trace) <= trace
      && (saved == old(saved) || saved == Some(q)) && (ok && old(saved) == Some(queue) ==> saved == Some(q))
      && (old(hindered) || !ok ==> hindered)
    }

    /** A task's state, read while a queue is being worked off. */
    method StatusFor(queue: Queue, u: Upid) returns (r: Option<(bool, bool)>)
      requires Session(queue)
      modifies `tasks, `now, `hindered
      ensures Session(queue) && Later(old(tasks), tasks) && now >= old(now)
      ensures r.Some? ==> u in tasks && r.value == (!tasks[u].active, tasks[u].succeeded)
      ensures hindered == (old(hindered) || r.None?)
    {
      hide Durable, LivesOn, FitsIn;
      ghost var before := tasks;
      r := Status(u);
      FitsLater(queue, before, tasks, submitted);
    }

    /** A replay that runs is over when its task stopped. */
    method FinishReplay(queue: Queue, k: Upid) returns (q: Queue, ok: bool)
      requires Session(queue) && k in queue.items && !IsOver(queue.items[k]) && queue.items[k].replay.Some?
      modifies `tasks, `now, `saved, `keeper, `trace, `hindered
      ensures Steps(queue, q, k, ok)
      ensures ok ==> q == ReplayOutcome(queue, k, tasks)
      ensures ok ==> Stepped(queue.items[k], q.items[k], tasks, looked, submitted, hindered)
    {
      hide Durable, Replaces, SameRequest;
      q := queue;
      var status := StatusFor(queue, queue.items[k].replay.value);
      if status.None? { return queue, false; }
      ok := true;
      if status.value.0 {
        assert ItemFits(k, queue.items[k], tasks, submitted);
        q, ok := SaveItem(queue, k, queue.items[k].(state := if status.value.1 then Completed else Failed));
      }
      if ok { FinishedIsStepped(queue, k, q, tasks, looked, submitted, hindered); }
    }

    /** After a lost reply the replay is looked for in the history, by what it asks for: the first
        listed task that fits is the replay, and the item is never submitted again. */
    method Reconcile(queue: Queue, k: Upid) returns (q: Queue, ok: bool)
      requires Session(queue) && k in queue.items && queue.items[k].state.Submitting?
      modifies `tasks, `now, `saved, `keeper, `listed, `trace, `hindered, `looked
      ensures Steps(queue, q, k, ok) && OnlyLooked(old(looked), looked, k)
      ensures if q == queue then ok ==> NoneFits(queue.items[k], listed, tasks) else IsMatched(queue.items[k], q.items[k], listed, tasks)
      ensures ok ==> k in looked && looked[k] == Lookup(queue.items[k].node, queue.items[k].submittedAt, listed)
    {
      Unchanged(queue, k);
      hide Session, IsReplayOf, OnlyItem, Durable, FitsIn, Replaces, Later, OnlyLooked, ItemFits, NoneFits, IsMatched;
      var found;
      found, ok := LookUp(queue, k);
      q := queue;
      if ok && found.Some? {
        q, ok := TakeReplay(queue, k, found.value);
      }
    }

    method ReconcileItem(queue: Queue, k: Upid) returns (q: Queue, ok: bool)
      requires Session(queue) && k in queue.items && queue.items[k].state.Submitting?
      modifies `tasks, `now, `saved, `keeper, `listed, `trace, `hindered, `looked
      ensures Steps(queue, q, k, ok) && OnlyLooked(old(looked), looked, k)
      ensures ok ==> Stepped(queue.items[k], q.items[k], tasks, looked, submitted, hindered)
    {
      assert ItemFits(k, queue.items[k], tasks, submitted);
      hide Session, IsReplayOf, IsMatched, OnlyItem, OnlyLooked, ItemFits, Stepped;
      q, ok := Reconcile(queue, k);
      if ok {
        ItemOrQueue(queue, q, k);
        ReconciledIsStepped(queue.items[k], q.items[k], listed, tasks, looked, submitted, hindered);
      }
    }

    lemma Unchanged(queue: Queue, k: Upid)
      requires k in queue.items
      ensures OnlyItem(queue, queue, k)
    {
      assert queue.items == queue.items[k := queue.items[k]];
    }

    method LookUp(queue: Queue, k: Upid) returns (found: Option<Upid>, ok: bool)
      requires Session(queue) && k in queue.items
      modifies `tasks, `now, `listed, `hindered, `looked
      ensures Session(queue) && Later(old(tasks), tasks)
      ensures found.Some? ==> found.value in listed && IsReplayOf(found.value, queue.items[k], tasks)
      ensures ok && found.None? ==> NoneFits(queue.items[k], listed, tasks)
      ensures OnlyLooked(old(looked), looked, k)
      ensures ok ==> k in looked && looked[k] == Lookup(queue.items[k].node, queue.items[k].submittedAt, listed)
      ensures old(hindered) || !ok ==> hindered
    {
      hide FitsIn, LivesOn, AskedKept, IsReplayOf;
      ghost var before := tasks;
      var history := History(queue.items[k].node, queue.items[k].submittedAt, k);
      found, ok := None, false;
      if history.Some? { found, ok := FindReplay(queue.items[k], history.value); }
      FitsLater(queue, before, tasks, submitted);
    }

    /** The first listed task that asks for what the item asks for. */
    method FindReplay(item: Item, candidates: seq<Upid>) returns (found: Option<Upid>, ok: bool)
      requires Durable()
      modifies `tasks, `now, `hindered
      ensures Durable() && Later(old(tasks), tasks)
      ensures found.Some? ==> found.value in candidates && IsReplayOf(found.value, item, tasks)
      ensures ok && found.None? ==> forall u | u in candidates :: u in tasks && !IsReplayOf(u, item, tasks)
      ensures old(hindered) || !ok ==> hindered
    {
      hide SameRequest, AskedKept, FitsIn;
      for i := 0 to |candidates|
        invariant Durable() && Later(old(tasks), tasks) && (old(hindered) ==> hindered)
        invariant forall j | 0 <= j < i :: candidates[j] in tasks && !IsReplayOf(candidates[j], item, tasks)
      {
        var arguments := ArgumentsOf(candidates[i]);
        if arguments.None? { return None, false; }
        if candidates[i] != item.original && SameRequest(arguments.value, item.arguments) { return Some(candidates[i]), true; }
      }
      return None, true;
    }

    method TakeReplay(queue: Queue, k: Upid, candidate: Upid) returns (q: Queue, ok: bool)
      requires Session(queue) && k in queue.items && queue.items[k].state.Submitting?
      requires IsReplayOf(candidate, queue.items[k], tasks) && candidate in listed
      modifies `saved, `keeper, `trace, `hindered
      ensures Steps(queue, q, k, ok)
      ensures q != queue && IsMatched(queue.items[k], q.items[k], listed, tasks)
    {
      assert ItemFits(k, queue.items[k], tasks, submitted);
      hide Session, IsReplayOf, OnlyItem, ItemFits, IsMatched;
      q, ok := SaveReplay(queue, k, candidate);
      FoundIsMatched(queue.items[k], candidate, listed, tasks);
      ItemOrQueue(queue, q, k);
    }

    method SaveReplay(queue: Queue, k: Upid, candidate: Upid) returns (q: Queue, ok: bool)
      requires Session(queue) && k in queue.items && queue.items[k].state.Submitting? && IsReplayOf(candidate, queue.items[k], tasks)
      modifies `saved, `keeper, `trace, `hindered
      ensures Session(q) && OnlyItem(queue, q, k) && q.items[k] == queue.items[k].(replay := Some(candidate), state := Running)
      ensures (ok ==> saved == Some(q)) && (saved == old(saved) || saved == Some(q))
      ensures old(trace) <= trace
      ensures hindered == (old(hindered) || !ok)
    {
      assert ItemFits(k, queue.items[k], tasks, submitted);
      q, ok := SaveItem(queue, k, queue.items[k].(replay := Some(candidate), state := Running));
    }

    /** Submits a waiting item once its original task stopped unfinished and nothing is in the way:
        the journal says so before the command is sent. */
    method SubmitItem(queue: Queue, k: Upid) returns (q: Queue, ok: bool)
      requires Session(queue) && k in queue.items && queue.items[k].state.Pending?
      requires queue.bootId != boot || queue.resumeAllowed
      modifies `tasks, `now, `saved, `keeper, `submitted, `trace, `hindered
      ensures now >= old(now) && (k in q.items && q.items[k].state.Submitting? ==> old(now) <= q.items[k].submittedAt <= now)
      ensures Steps(queue, q, k, ok)
      ensures submitted == old(submitted) || (submitted == old(submitted) + {k} && k !in old(submitted))
      ensures Waited(queue, q, k, tasks) && (ok && q.items[k].state.Submitting? ==> k in submitted && saved == Some(q))
      ensures ok ==> k in tasks && (q == queue ==> tasks[k].active || (hindered && !tasks[k].succeeded))
      ensures k in submitted ==> q.items[k].state.Submitting?
    {
      PendingIsNotSubmitted(queue, k);
      Unchanged(queue, k);
      hide Session, Durable, OnlyItem, FitsIn, Replaces, Waited, Later;
      var original := StatusFor(queue, k);
      q, ok := queue, original.Some?;
      if ok && original.value.0 { q, ok := AdvanceStopped(queue, k, original.value.1); }
    }

    method WaitOrSubmit(queue: Queue, k: Upid) returns (q: Queue, ok: bool)
      requires Session(queue) && k in queue.items && queue.items[k].state.Pending?
      requires queue.bootId != boot || queue.resumeAllowed
      modifies `tasks, `now, `saved, `keeper, `submitted, `trace, `hindered
      ensures now >= old(now) && (k in q.items && q.items[k].state.Submitting? ==> old(now) <= q.items[k].submittedAt <= now)
      ensures Steps(queue, q, k, ok) && old(submitted) <= submitted
      ensures ok ==> Stepped(queue.items[k], q.items[k], tasks, looked, submitted, hindered)
    {
      assert ItemFits(k, queue.items[k], tasks, submitted);
      hide Session, OnlyItem, ItemFits, Stepped, Waited;
      q, ok := SubmitItem(queue, k);
      if ok { WaitedIsStepped(queue, q, k, tasks, looked, submitted, hindered); }
    }

    method AdvanceStopped(queue: Queue, k: Upid, succeeded: bool) returns (q: Queue, ok: bool)
      requires Session(queue) && k in queue.items && queue.items[k].state.Pending?
      requires queue.bootId != boot || queue.resumeAllowed
      requires k in tasks && !tasks[k].active && tasks[k].succeeded == succeeded
      modifies `tasks, `now, `saved, `keeper, `submitted, `trace, `hindered
      ensures now >= old(now) && (k in q.items && q.items[k].state.Submitting? ==> old(now) <= q.items[k].submittedAt <= now)
      ensures Session(q) && OnlyItem(queue, q, k) && Later(old(tasks), tasks) && (saved == old(saved) || saved == Some(q))
      ensures submitted == old(submitted) || (submitted == old(submitted) + {k} && k !in old(submitted))
      ensures Waited(queue, q, k, tasks) && (ok && q.items[k].state.Submitting? ==> k in submitted && saved == Some(q))
      ensures ok && old(saved) == Some(queue) ==> saved == Some(q)
      ensures ok ==> k in tasks && (q == queue ==> tasks[k].active || (hindered && !tasks[k].succeeded))
      ensures k in submitted ==> q.items[k].state.Submitting?
      ensures old(trace) <= trace
      ensures old(hindered) || !ok ==> hindered
    {
      PendingIsNotSubmitted(queue, k);
      hide Session, Durable, OnlyItem, FitsIn, Replaces;
      if succeeded { q, ok := CompleteStopped(queue, k); } else { q, ok := SubmitStopped(queue, k); }
    }

    /** A waiting item whose original task succeeded after all. */
    method CompleteStopped(queue: Queue, k: Upid) returns (q: Queue, ok: bool)
      requires Session(queue) && k in queue.items && queue.items[k].state.Pending? && k in tasks && !tasks[k].active
      modifies `saved, `keeper, `trace, `hindered
      ensures Session(q) && OnlyItem(queue, q, k) && q.items[k] == queue.items[k].(state := Completed)
      ensures saved == old(saved) || saved == Some(q)
      ensures old(trace) <= trace
      ensures hindered == (old(hindered) || !ok)
      ensures ok ==> saved == Some(q)
    {
      CompletedFits(queue, k);
      hide Durable, FitsIn, Replaces, ItemFits;
      q, ok := SaveItem(queue, k, queue.items[k].(state := Completed));
    }

    method SubmitStopped(queue: Queue, k: Upid) returns (q: Queue, ok: bool)
      requires Session(queue) && k in queue.items && queue.items[k].state.Pending?
      requires queue.bootId != boot || queue.resumeAllowed
      requires k in tasks && !tasks[k].active
      modifies `tasks, `now, `saved, `keeper, `submitted, `trace, `hindered
      ensures now >= old(now) && (k in q.items && q.items[k].state.Submitting? ==> old(now) <= q.items[k].submittedAt <= now)
      ensures Session(q) && OnlyItem(queue, q, k) && Later(old(tasks), tasks) && (saved == old(saved) || saved == Some(q))
      ensures submitted == old(submitted) || (submitted == old(submitted) + {k} && k !in old(submitted))
      ensures tasks[k] == old(tasks[k])
      ensures q == queue || q.items[k] == queue.items[k].(state := Submitting, submittedAt := q.items[k].submittedAt)
      ensures (ok && q.items[k].state.Submitting? ==> k in submitted && saved == Some(q)) && (k in submitted ==> q.items[k].state.Submitting?)
      ensures old(trace) <= trace
      ensures old(hindered) || !ok ==> hindered
      ensures ok && old(saved) == Some(queue) ==> saved == Some(q)
      ensures ok && q == queue ==> hindered
    {
      hide Session, Durable, LivesOn, ItemFits;
      PendingIsNotSubmitted(queue, k);
      Unchanged(queue, k);
      var clear := CheckNodeFor(queue, k);
      if !clear { return queue, true; }
      SubmittingFits(queue, k, now);
      q, ok := SaveItem(queue, k, queue.items[k].(state := Submitting, submittedAt := now));
      if ok { ok := Send(q, k); }
    }

    method CheckNodeFor(queue: Queue, k: Upid) returns (ok: bool)
      requires Session(queue)
      modifies `tasks, `now, `trace, `hindered
      ensures Session(queue) && Later(old(tasks), tasks) && now >= old(now) && old(trace) <= trace
      ensures ok ==> Now().cleared == Some(k)
      ensures hindered == (old(hindered) || !ok)
    {
      hide Durable, LivesOn, FitsIn;
      ghost var before := tasks;
      ok := CheckNode(k);
      FitsLater(queue, before, tasks, submitted);
    }

    lemma PendingIsNotSubmitted(queue: Queue, k: Upid)
      requires Session(queue) && k in queue.items && queue.items[k].state.Pending?
      ensures k !in submitted
    {
      assert ItemFits(k, queue.items[k], tasks, submitted);
    }

    lemma SubmittingFits(queue: Queue, k: Upid, time: int)
      requires Session(queue) && k in queue.items && queue.items[k].state.Pending? && k in tasks && !tasks[k].active
      ensures ItemFits(k, queue.items[k].(state := Submitting, submittedAt := time), tasks, submitted)
    {
      hide SameRequest;
      assert ItemFits(k, queue.items[k], tasks, submitted);
    }

    lemma CompletedFits(queue: Queue, k: Upid)
      requires Fits(queue) && k in queue.items && queue.items[k].state.Pending? && k in tasks && !tasks[k].active
      ensures ItemFits(k, queue.items[k].(state := Completed), tasks, submitted)
    {
      hide SameRequest;
      assert ItemFits(k, queue.items[k], tasks, submitted);
    }

    /** Sends the command that the journal announced. */
    method Send(queue: Queue, k: Upid) returns (ok: bool)
      requires Session(queue) && saved == Some(queue) && k in queue.items && queue.items[k].state.Submitting?
      requires k !in submitted && k in tasks && !tasks[k].active && k in Now().begun && Now().cleared == Some(k)
      requires queue.bootId != boot || queue.resumeAllowed
      modifies `tasks, `now, `submitted, `trace, `hindered
      ensures Session(queue) && Later(old(tasks), tasks) && now >= old(now) && submitted == old(submitted) + {k}
      ensures old(trace) <= trace
      ensures old(hindered) || !ok ==> hindered
    {
      hide Durable, LivesOn, FitsIn;
      ghost var before := tasks;
      SubmittedFits(queue, k, tasks, submitted);
      ok := Submit(k);
      FitsLater(queue, before, tasks, submitted);
    }

    /** One step for one item, by its state. */
    method ReplayItem(queue: Queue, k: Upid) returns (q: Queue, ok: bool)
      requires Session(queue) && k in queue.items
      requires queue.items[k].state.Pending? ==> queue.bootId != boot || queue.resumeAllowed
      modifies `tasks, `now, `saved, `keeper, `submitted, `listed, `trace, `hindered, `looked
      ensures Steps(queue, q, k, ok)
      ensures old(submitted) <= submitted && (!queue.items[k].state.Pending? ==> submitted == old(submitted))
      ensures ok ==> Stepped(queue.items[k], q.items[k], tasks, looked, submitted, hindered)
      ensures queue.items[k].state.Pending? && q.items[k].state.Submitting? ==> old(now) <= q.items[k].submittedAt <= now
      ensures OnlyLooked(old(looked), looked, k)
    {
      assert ItemFits(k, queue.items[k], tasks, submitted);
      hide Session, ItemFits, LivesOn, Durable, Stepped, OnlyItem, OnlyLooked;
      if IsOver(queue.items[k]) {
        OverIsStepped(queue.items[k], tasks, looked, submitted, hindered);
        Unchanged(queue, k);
        q, ok := queue, true;
      } else if queue.items[k].replay.Some? {
        q, ok := FinishReplay(queue, k);
      } else if queue.items[k].state.Submitting? {
        q, ok := ReconcileItem(queue, k);
      } else {
        q, ok := WaitOrSubmit(queue, k);
      }
      NothingLookedFor(k);
    }

    lemma NothingLookedFor(k: Upid)
      ensures OnlyLooked(looked, looked, k)
    {
    }

    lemma ItemOrQueue(queue: Queue, q: Queue, k: Upid)
      requires OnlyItem(queue, q, k)
      ensures q == queue <==> q.items[k] == queue.items[k]
    {
      if q.items[k] == queue.items[k] { assert queue.items == queue.items[k := queue.items[k]]; }
    }

    lemma OverIsStepped(item: Item, tasks: map<Upid, Task>, looked: map<Upid, Lookup>, submitted: set<Upid>, hindered: bool)
      requires IsOver(item)
      ensures Stepped(item, item, tasks, looked, submitted, hindered)
    {
    }

    /** Every item takes its next step; a step that fails is left for the next run. */
    method ReplayItems(queue: Queue) returns (q: Queue)
      requires Session(queue) && saved == Some(queue) && (queue.bootId != boot || queue.resumeAllowed)
      modifies `tasks, `now, `saved, `keeper, `submitted, `listed, `trace, `hindered, `looked
      ensures Session(q) && Durable() && Replaces(q) && Later(old(tasks), tasks) && saved.Some? && q.items.Keys == saved.value.items.Keys == queue.items.Keys
      ensures old(trace) <= trace && (old(hindered) ==> hindered)
      ensures !hindered ==> saved == Some(q) && SameHeader(q, queue) && Progressed(queue.items, q.items, {}, old(tasks), tasks, looked, submitted)
    {
      hide Underway;
      q := queue;
      var left := q.items.Keys;
      BeginUnderway(queue, trace, hindered);
      while left != {}
        invariant left <= queue.items.Keys && Underway(queue, q, left, old(tasks), old(trace), old(hindered))
        decreases |left|
      {
        var k :| k in left;
        q := ReplayNext(queue, q, k, left, old(tasks), old(trace), old(hindered));
        left := left - {k};
      }
      EndUnderway(queue, q, old(tasks), old(trace), old(hindered));
    }

    /** A run through the items of a queue, with these still to come. */
    ghost predicate Underway(queue: Queue, q: Queue, left: set<Upid>, start: map<Upid, Task>, trace0: seq<Event>, hindered0: bool)
      reads this
    {
      && Session(q) && SameHeader(q, queue) && (q.bootId != boot || q.resumeAllowed) && q.items.Keys == queue.items.Keys
      && (forall k | k in queue.items :: queue.items[k].original == k)
      && Later(start, tasks) && trace0 <= trace && (hindered0 ==> hindered)
      && (!hindered ==> saved == Some(q) && Progressed(queue.items, q.items, left, start, tasks, looked, submitted))
    }

    lemma BeginUnderway(queue: Queue, trace0: seq<Event>, hindered0: bool)
      requires Session(queue) && saved == Some(queue) && (queue.bootId != boot || queue.resumeAllowed) && trace0 == trace && hindered0 == hindered
      ensures Underway(queue, queue, queue.items.Keys, tasks, trace0, hindered0)
    {
      hide Durable, Replaces, Progressed;
      ItemsAreTheirOwn(queue);
      NothingProgressed(queue.items, queue.items.Keys);
    }

    lemma EndUnderway(queue: Queue, q: Queue, start: map<Upid, Task>, trace0: seq<Event>, hindered0: bool)
      requires Underway(queue, q, {}, start, trace0, hindered0)
      ensures Session(q) && Durable() && Replaces(q) && Later(start, tasks) && saved.Some? && q.items.Keys == saved.value.items.Keys == queue.items.Keys
      ensures trace0 <= trace && (hindered0 ==> hindered)
      ensures !hindered ==> saved == Some(q) && SameHeader(q, queue) && Progressed(queue.items, q.items, {}, start, tasks, looked, submitted)
    {
      hide Durable, Replaces, FitsIn, Progressed, Later;
    }

    /** The next item's step; the others keep what they have. */
    method ReplayNext(ghost queue: Queue, q0: Queue, k: Upid, ghost left: set<Upid>, ghost start: map<Upid, Task>,
                      ghost trace0: seq<Event>, ghost hindered0: bool) returns (q: Queue)
      requires k in left && left <= queue.items.Keys && Underway(queue, q0, left, start, trace0, hindered0)
      modifies `tasks, `now, `saved, `keeper, `submitted, `listed, `trace, `hindered, `looked
      ensures Underway(queue, q, left - {k}, start, trace0, hindered0)
    {
      hide FitsIn, Durable, Replaces, LivesOn, Advances, Progressed, Stepped, Advanced, OnlyLooked;
      ghost var tasks0, looked0, submitted0 := tasks, looked, submitted;
      if !hindered { LeftIsUntouched(queue.items, q0.items, left, k, start, tasks, looked, submitted); }
      var ok;
      q, ok := ReplayItem(q0, k);
      LaterTwice(start, tasks0, tasks);
      if !hindered { StepProgresses(queue.items, q0, q, k, left, start, tasks0, tasks, looked0, looked, submitted0, submitted); }
    }

    lemma ItemsAreTheirOwn(queue: Queue)
      requires Fits(queue)
      ensures forall k | k in queue.items :: queue.items[k].original == k
    {
      forall k | k in queue.items ensures queue.items[k].original == k { assert ItemFits(k, queue.items[k], tasks, submitted); }
    }

    lemma NothingProgressed(items: map<Upid, Item>, left: set<Upid>)
      requires left == items.Keys
      ensures Progressed(items, items, left, tasks, tasks, looked, submitted)
    {
    }

    lemma LeftIsUntouched(items: map<Upid, Item>, after: map<Upid, Item>, left: set<Upid>, k: Upid, start: map<Upid, Task>,
                          tasks: map<Upid, Task>, looked: map<Upid, Lookup>, submitted: set<Upid>)
      requires Progressed(items, after, left, start, tasks, looked, submitted) && k in left && k in items
      ensures k in after && after[k] == items[k]
    {
    }

    /** After the reboot, or after a reboot that was called off: the journal is worked off and, once
        every item is over, closed. */
    method ReplayBackups() returns (ghost last: map<Upid, Item>)
      requires Durable()
      modifies `tasks, `now, `saved, `keeper, `submitted, `finished, `listed, `trace, `hindered, `looked
      ensures Durable() && Later(old(tasks), tasks)
      ensures old(saved).Some? && old(saved).value.bootId == boot && !old(saved).value.resumeAllowed ==>
        submitted == old(submitted) && saved == old(saved)
      ensures old(saved).Some? && saved.None? ==> finished == old(finished) + old(saved).value.items.Keys
      ensures old(trace) <= trace && (|trace| > |old(trace)| ==> trace[|old(trace)|] == Healthy)
      ensures |trace| > |old(trace)| + 1 ==> trace[|old(trace)| + 1].Listed?
      ensures !hindered && old(saved).Some? && (old(saved).value.bootId != boot || old(saved).value.resumeAllowed) ==>
        && Progressed(old(saved).value.items, last, {}, old(tasks), tasks, looked, submitted)
        && saved == if forall k | k in last :: IsOver(last[k]) then None else Some(old(saved).value.(items := last))
    {
      hide Session, Durable, FitsIn, LivesOn, Replaces, Recorded, AskedKept, SubmittedStopped, Progressed, IsOver;
      last := map[];
      if saved.None? { return; }
      var queue := saved.value;
      if queue.bootId == boot && !queue.resumeAllowed { return; }
      var healthy := CheckHealth();
      if !healthy { return; }
      var active := ActiveBackups();
      if active.None? { return; }
      SavedIsSession();
      ghost var start, items := tasks, queue.items;
      queue := ReplayItems(queue);
      last := queue.items;
      if !hindered { ProgressedSince(items, last, old(tasks), start, tasks, looked, submitted); }
      if forall k | k in queue.items :: IsOver(queue.items[k]) {
        var closed := Close(queue);
      }
    }

    lemma SavedIsSession()
      requires Durable() && saved.Some?
      ensures Session(saved.value)
    {
    }

    /** backup_release(): a reboot that was called off no longer holds the replays back. */
    method Release(execution: nat) returns (ok: bool)
      requires Durable()
      modifies `saved, `keeper, `trace, `hindered
      ensures Durable()
      ensures ok && old(saved).Some? && old(saved).value.execution == execution ==> saved == Some(old(saved).value.(resumeAllowed := true))
      ensures old(saved).None? || old(saved).value.execution != execution ==> ok && saved == old(saved)
      ensures old(trace) <= trace && (!ok ==> hindered)
    {
      if saved.None? || saved.value.execution != execution { return true; }
      SavedIsSession();
      ok := Save(saved.value.(resumeAllowed := true));
    }

    // ----- before a reboot -----

    /** Nothing the journal says is missing from memory, and no replay is known to one side only. */
    ghost predicate InStep(items: map<Upid, Item>)
      reads `saved, `tasks, `submitted
    {
      && ItemsFit(items, tasks, submitted)
      && items.Keys == Items().Keys
      && forall k | k in Items() :: Advances(Items()[k], items[k]) && items[k].replay == Items()[k].replay
    }

    /** An item as it enters the journal: it waits, nobody has asked its task to stop, and it is to run
        where that one runs, with the same arguments. */
    predicate IsNew(item: Item, u: Upid, tasks: map<Upid, Task>) {
      u in tasks && item == Item(tasks[u].node, u, tasks[u].arguments, Pending, None, false, item.submittedAt)
    }

    /** Active backups that are not journaled yet, as new items. */
    method Capture(active: seq<Upid>, items: map<Upid, Item>) returns (r: Option<map<Upid, Item>>)
      requires Durable() && forall u | u in active :: u in tasks && tasks[u].active
      modifies `tasks, `now, `hindered
      ensures Durable() && Later(old(tasks), tasks) && now >= old(now)
      ensures r.Some? ==> ItemsFit(r.value, tasks, submitted) && forall u :: u in r.value <==> u in active && u !in items
      ensures r.Some? ==> forall u | u in r.value :: IsNew(r.value[u], u, tasks)
      ensures old(hindered) || r.None? ==> hindered
    {
      hide SameRequest, AskedKept;
      assert forall u | u in active :: u !in submitted;
      var captured: map<Upid, Item> := map[];
      for i := 0 to |active|
        invariant Durable() && Later(old(tasks), tasks) && now >= old(now) && (old(hindered) ==> hindered)
        invariant ItemsFit(captured, tasks, submitted) && forall u :: u in captured <==> u in active[..i] && u !in items
        invariant forall u | u in captured :: IsNew(captured[u], u, tasks)
      {
        var u := active[i];
        assert active[..i + 1] == active[..i] + [u];
        if u !in items {
          ghost var before := tasks;
          var arguments := ArgumentsOf(u);
          ItemsFitLater(captured, before, tasks, submitted);
          if arguments.None? { return None; }
          captured := captured[u := Item(tasks[u].node, u, arguments.value, Pending, None, false, 0)];
        }
      }
      assert active[..|active|] == active;
      r := Some(captured);
    }

    /** The items with the new ones; an item whose replay is among them hands over to it. */
    function Merged(items: map<Upid, Item>, captured: map<Upid, Item>): map<Upid, Item> {
      (map k | k in items && !(items[k].replay.Some? && items[k].replay.value in captured) :: items[k]) + captured
    }

    lemma MergedLivesOn(items: map<Upid, Item>, captured: map<Upid, Item>, queue: Queue)
      requires InStep(items) && ItemsFit(captured, tasks, submitted) && forall u | u in captured :: u !in items
      requires forall u | u in captured :: captured[u].state.Pending? && u in Now().running
      requires queue.items == Merged(items, captured)
      ensures NewOnesListed(queue) && Replaces(queue) && ItemsFit(queue.items, tasks, submitted)
    {
      var q := queue.items;
      forall k | k in q ensures ItemFits(k, q[k], tasks, submitted) {
        assert q[k] == if k in captured then captured[k] else items[k];
      }
      forall k | k in Items() ensures LivesOn(k, Items(), q) {
        assert ItemFits(k, items[k], tasks, submitted);
        if k !in q {
          var r := items[k].replay.value;
          assert ItemFits(r, captured[r], tasks, submitted);
        } else {
          assert q[k] == items[k];
        }
      }
    }

    /** Journals each stop request before the backup is asked to stop. */
    method StopAll(queue: Queue, active: seq<Upid>) returns (q: Queue, ok: bool)
      requires Durable() && saved == Some(queue) && forall u | u in active :: u in queue.items
      modifies `tasks, `now, `saved, `keeper, `asked, `trace, `hindered
      ensures Durable() && now >= old(now) && SameHeader(q, queue)
      ensures ok ==> saved == Some(q) && q.items.Keys == queue.items.Keys && forall u | u in active :: q.items[u].stopRequested
      ensures ok ==> forall u | u in active :: queue.items[u].stopRequested || u in asked
      ensures old(trace) <= trace && Now().running == old(Now()).running && (old(hindered) || !ok ==> hindered)
    {
      hide Durable, LivesOn, FitsIn;
      q := queue;
      for i := 0 to |active|
        invariant Durable() && saved == Some(q) && now >= old(now) && SameHeader(q, queue) && q.items.Keys == queue.items.Keys
        invariant forall j | 0 <= j < i :: q.items[active[j]].stopRequested && (queue.items[active[j]].stopRequested || active[j] in asked)
        invariant forall u | u in q.items :: q.items[u].stopRequested ==> queue.items[u].stopRequested || u in asked
        invariant old(trace) <= trace && Now().running == old(Now()).running && (old(hindered) ==> hindered)
      {
        var u := active[i];
        if !q.items[u].stopRequested {
          q, ok := RequestStop(q, u);
          if !ok { return q, false; }
        }
      }
      ok := true;
    }

    method RequestStop(queue: Queue, u: Upid) returns (q: Queue, ok: bool)
      requires Durable() && saved == Some(queue) && u in queue.items && !queue.items[u].stopRequested
      modifies `tasks, `now, `saved, `keeper, `asked, `trace, `hindered
      ensures Durable() && now >= old(now) && q == queue.(items := queue.items[u := queue.items[u].(stopRequested := true)])
      ensures ok ==> saved == Some(q) && u in asked && asked[u] == queue.items[u].arguments
      ensures old(asked).Keys <= asked.Keys && Now().running == old(Now()).running && (old(hindered) || !ok ==> hindered)
      ensures old(trace) <= trace
    {
      SavedIsSession();
      assert ItemFits(u, queue.items[u], tasks, submitted);
      hide Durable, FitsIn, Replaces, ItemFits;
      q, ok := SaveItem(queue, u, queue.items[u].(stopRequested := true));
      if ok { ok := StopJournaled(u); }
    }

    /** The command to stop, or the news that it stopped anyway. */
    method StopJournaled(u: Upid) returns (ok: bool)
      requires Durable() && saved.Some? && u in saved.value.items && saved.value.items[u].stopRequested && u in Now().wanted
      modifies `tasks, `now, `asked, `keeper, `trace, `hindered
      ensures Durable() && now >= old(now) && asked == old(asked)[u := saved.value.items[u].arguments] && Now().running == old(Now()).running
      ensures ok ==> hindered == old(hindered) || (u in tasks && !tasks[u].active)
      ensures old(trace) <= trace && (old(hindered) || !ok ==> hindered)
    {
      hide Durable;
      ok := Stop(u);
      if !ok {
        var status := Status(u);
        ok := status.Some? && status.value.0;
      }
    }

    /** Reconciles what an earlier run submitted without learning the outcome. */
    method ReconcileSubmitted() returns (ok: bool)
      requires Durable() && saved.Some?
      modifies `tasks, `now, `saved, `keeper, `submitted, `listed, `trace, `hindered, `looked
      ensures Durable() && submitted == old(submitted)
      ensures ok ==> saved.Some? && SameHeader(saved.value, old(saved).value)
      ensures ok ==> LookedThrough(old(saved).value.items, saved.value.items, {}, tasks, looked)
      ensures old(trace) <= trace
      ensures old(hindered) || !ok ==> hindered
    {
      var queue := saved.value;
      ghost var first := queue;
      hide Looking, Durable, LookedThrough, Session;
      BeginLooking();
      queue, ok := ReconcileEach(queue);
      if ok { EndLooking(first, queue, old(submitted)); }
    }

    method ReconcileEach(first: Queue) returns (queue: Queue, ok: bool)
      requires Looking(first, first, first.items.Keys, submitted)
      modifies `tasks, `now, `saved, `keeper, `submitted, `listed, `trace, `hindered, `looked
      ensures Durable() && submitted == old(submitted) && old(trace) <= trace
      ensures old(hindered) || !ok ==> hindered
      ensures ok ==> Looking(first, queue, {}, submitted)
    {
      hide Durable, LookedThrough, Session;
      queue, ok := first, true;
      var left := first.items.Keys;
      while left != {}
        invariant left <= first.items.Keys && Looking(first, queue, left, old(submitted)) && old(trace) <= trace && (old(hindered) ==> hindered)
        decreases |left|
      {
        var k :| k in left;
        queue, ok := ReconcileNext(first, queue, k, left, old(submitted));
        if !ok { return queue, false; }
        left := left - {k};
      }
      ok := true;
    }

    /** A look for every submitting item of a queue, with these still to come. */
    ghost predicate Looking(first: Queue, queue: Queue, left: set<Upid>, submitted0: set<Upid>)
      reads this
    {
      && Durable() && saved == Some(queue) && submitted == submitted0 && SameHeader(queue, first)
      && (forall k | k in first.items :: first.items[k].original == k)
      && LookedThrough(first.items, queue.items, left, tasks, looked)
    }

    lemma BeginLooking()
      requires Durable() && saved.Some?
      ensures Looking(saved.value, saved.value, saved.value.items.Keys, submitted)
    {
      ItemsAreTheirOwn(saved.value);
      NothingLooked(saved.value.items, saved.value.items.Keys);
      hide LookedThrough;
    }

    lemma EndLooking(first: Queue, queue: Queue, submitted0: set<Upid>)
      requires Looking(first, queue, {}, submitted0)
      ensures Durable() && submitted == submitted0 && saved == Some(queue) && SameHeader(queue, first)
      ensures LookedThrough(first.items, queue.items, {}, tasks, looked)
    {
      hide Durable, LookedThrough;
    }

    method ReconcileNext(ghost first: Queue, queue: Queue, k: Upid, ghost left: set<Upid>, ghost submitted0: set<Upid>) returns (q: Queue, ok: bool)
      requires k in left && left <= first.items.Keys && Looking(first, queue, left, submitted0)
      modifies `tasks, `now, `saved, `keeper, `submitted, `listed, `trace, `hindered, `looked
      ensures Durable() && submitted == submitted0 && old(trace) <= trace && (old(hindered) || !ok ==> hindered)
      ensures ok ==> Looking(first, q, left - {k}, submitted0)
    {
      hide Durable, LookedThrough, OnlyLooked, Resolved;
      LeftIsNotLooked(first.items, queue.items, left, k, tasks, looked);
      ghost var tasks0, looked0 := tasks, looked;
      q, ok := queue, true;
      if queue.items[k].state.Submitting? {
        q, ok := ReconcileOne(queue, k);
        if ok { LooksThrough(first.items, queue, q, k, left, tasks0, tasks, looked0, looked); }
      } else {
        LooksPast(first.items, queue.items, left, k, tasks, looked);
      }
    }

    lemma NothingLooked(items: map<Upid, Item>, left: set<Upid>)
      requires left == items.Keys
      ensures LookedThrough(items, items, left, tasks, looked)
    {
    }

    lemma LeftIsNotLooked(items: map<Upid, Item>, after: map<Upid, Item>, left: set<Upid>, k: Upid, tasks: map<Upid, Task>, looked: map<Upid, Lookup>)
      requires LookedThrough(items, after, left, tasks, looked) && k in left && k in items
      ensures k in after && after[k] == items[k]
    {
    }

    lemma LooksPast(items: map<Upid, Item>, after: map<Upid, Item>, left: set<Upid>, k: Upid, tasks: map<Upid, Task>, looked: map<Upid, Lookup>)
      requires LookedThrough(items, after, left, tasks, looked) && k in items && !items[k].state.Submitting?
      ensures LookedThrough(items, after, left - {k}, tasks, looked)
    {
    }

    method ReconcileOne(queue: Queue, k: Upid) returns (q: Queue, ok: bool)
      requires Durable() && saved == Some(queue) && k in queue.items && queue.items[k].state.Submitting?
      modifies `tasks, `now, `saved, `keeper, `submitted, `listed, `trace, `hindered, `looked
      ensures Durable() && submitted == old(submitted) && Later(old(tasks), tasks)
      ensures ok ==> saved == Some(q) && SameHeader(q, queue) && OnlyItem(queue, q, k)
      ensures ok ==> Resolved(queue.items[k], q.items[k], tasks, looked)
      ensures OnlyLooked(old(looked), looked, k)
      ensures old(trace) <= trace && (old(hindered) || !ok ==> hindered)
    {
      SavedIsSession();
      assert ItemFits(k, queue.items[k], tasks, submitted);
      hide Replaces, FitsIn, Resolved, OnlyLooked, Durable, LivesOn;
      q, ok := ReplayItem(queue, k);
    }

    function WithoutRequests(items: map<Upid, Item>): map<Upid, Item> { map k | k in items :: items[k].(stopRequested := false) }

    lemma SavedIsInStep(items: map<Upid, Item>)
      requires Durable() && saved.Some? && (items == saved.value.items || items == WithoutRequests(saved.value.items))
      ensures InStep(items)
    {
      forall k | k in items ensures ItemFits(k, items[k], tasks, submitted) { assert ItemFits(k, saved.value.items[k], tasks, submitted); }
    }

    /** The journal of this execution, taken over from what an earlier one left. */
    method OpenQueue(execution: nat) returns (queue: Queue, ok: bool)
      requires Durable()
      modifies `tasks, `now, `saved, `keeper, `submitted, `listed, `trace, `hindered, `looked
      ensures Durable() && submitted == old(submitted)
      ensures ok ==> InStep(queue.items) && SameHeader(queue, Queue(boot, execution, false, map[]))
      ensures old(trace) <= trace && (old(hindered) || !ok ==> hindered)
      ensures ok && old(saved).None? ==> queue.items == map[]
      ensures ok && old(saved).Some? ==> saved.Some? && LookedThrough(old(saved).value.items, saved.value.items, {}, tasks, looked)
      ensures ok && old(saved).Some? ==> forall k | k in queue.items ::
        k in saved.value.items && queue.items[k] == saved.value.items[k].(stopRequested := queue.items[k].stopRequested)
        && queue.items[k].stopRequested == (saved.value.items[k].stopRequested && old(saved).value.execution == execution)
    {
      queue, ok := Queue(boot, execution, false, map[]), true;
      if saved.None? { return; }
      ok := ReconcileSubmitted();
      if !ok { return; }
      SavedIsInStep(saved.value.items);
      SavedIsInStep(WithoutRequests(saved.value.items));
      queue := queue.(items := if saved.value.execution == execution then saved.value.items else WithoutRequests(saved.value.items));
    }

    lemma NothingSavedIsLost(q: Queue)
      requires Durable() && Replaces(q)
      ensures q.items == map[] ==> saved.None?
    {
      if saved.Some? {
        var items := saved.value.items;
        assert forall k | k in items :: LivesOn(k, items, q.items);
      }
    }

    lemma ActiveIsMerged(active: seq<Upid>, items: map<Upid, Item>, captured: map<Upid, Item>, before: map<Upid, Task>)
      requires ItemsFit(items, before, submitted) && forall u | u in active :: u in before && before[u].active
      requires forall u | u in active :: u in captured || u in items
      ensures forall u | u in active :: u in Merged(items, captured)
    {
      forall u | u in active ensures u in Merged(items, captured) {
        if u in items { assert ItemFits(u, items[u], before, submitted); }
      }
    }

    /** A task that is new to the journal is answered for by its own item only. */
    lemma NoneReplaysTheNew(items: map<Upid, Item>, captured: map<Upid, Item>)
      requires forall u | u in captured :: captured[u].replay.None?
      ensures forall u, k | u in captured && k in Merged(items, captured) :: Merged(items, captured)[k].replay != Some(u)
    {
    }

    /** Lists the active backups and journals those that are new. */
    method Inventory(queue: Queue) returns (q: Queue, active: seq<Upid>, ok: bool)
      requires Durable() && InStep(queue.items)
      modifies `tasks, `now, `saved, `keeper, `trace, `hindered
      ensures Durable() && now >= old(now) && SameHeader(q, queue)
      ensures ok ==> (forall u | u in active :: u in q.items) && (if q.items == map[] then saved.None? else saved == Some(q))
      ensures ok ==> Now().running == (set u | u in active)
      ensures ok ==> forall u, k | u in active && u !in queue.items && k in q.items :: q.items[k].replay != Some(u)
      ensures old(trace) <= trace && (old(hindered) || !ok ==> hindered)
    {
      ghost var before := tasks;
      assert ItemsFit(queue.items, before, submitted);
      hide Durable, LivesOn, ItemFits, ItemsFit, Merged, Advances;
      var listed := ActiveBackups();
      if listed.None? { return queue, [], false; }
      active := listed.value;
      InStepLater(queue.items, before);
      var captured := CaptureNew(active, queue.items);
      if captured.None? { return queue, active, false; }
      NoneReplaysTheNew(queue.items, captured.value);
      q, ok := JournalNew(queue, captured.value);
    }

    lemma InStepLater(items: map<Upid, Item>, before: map<Upid, Task>)
      requires ItemsFit(items, before, submitted) && Later(before, tasks) && items.Keys == Items().Keys
      requires forall k | k in Items() :: Advances(Items()[k], items[k]) && items[k].replay == Items()[k].replay
      ensures InStep(items)
    {
      ItemsFitLater(items, before, tasks, submitted);
    }

    method CaptureNew(active: seq<Upid>, items: map<Upid, Item>) returns (r: Option<map<Upid, Item>>)
      requires Durable() && InStep(items) && forall u | u in active :: u in tasks && tasks[u].active
      modifies `tasks, `now, `hindered
      ensures Durable() && InStep(items) && now >= old(now) && (old(hindered) || r.None? ==> hindered)
      ensures r.Some? ==> ItemsFit(r.value, tasks, submitted) && forall u | u in r.value :: u in active && u !in items && IsNew(r.value[u], u, tasks)
      ensures r.Some? ==> forall u | u in active :: u in Merged(items, r.value) && (u !in items ==> u in r.value)
    {
      hide Durable, LivesOn, ItemFits, Merged;
      ghost var before := tasks;
      r := Capture(active, items);
      ItemsFitLater(items, before, tasks, submitted);
      if r.Some? { ActiveIsMerged(active, items, r.value, before); }
    }

    /** Journals the merged items, if there are any. */
    method JournalNew(queue: Queue, captured: map<Upid, Item>) returns (q: Queue, ok: bool)
      requires Durable() && InStep(queue.items) && ItemsFit(captured, tasks, submitted)
      requires forall u | u in captured :: u !in queue.items && captured[u].state.Pending? && u in Now().running
      modifies `saved, `keeper, `trace, `hindered
      ensures Durable() && q == queue.(items := Merged(queue.items, captured))
      ensures ok ==> if q.items == map[] then saved.None? else saved == Some(q)
      ensures old(trace) <= trace && Now().running == old(Now()).running && (old(hindered) || !ok ==> hindered)
    {
      q := queue.(items := Merged(queue.items, captured));
      MergedLivesOn(queue.items, captured, q);
      NothingSavedIsLost(q);
      hide Durable, Replaces, ItemsFit, NewOnesListed, Merged, InStep;
      ok := true;
      if q.items != map[] { ok := Save(q); }
    }

    /** Journals and stops every active backup. When it succeeds the last inventory was empty and the
        journal, if there is one, holds all replays back until this execution's reboot or its release.
        When it gives up unhindered, two minutes have passed and backups that are journaled to be stopped
        still run. */
    method PrepareBackups(execution: nat) returns (ok: bool, ghost began: int)
      requires Durable()
      modifies `tasks, `now, `saved, `keeper, `submitted, `asked, `listed, `trace, `hindered, `looked
      ensures Durable() && submitted == old(submitted)
      ensures ok && saved.Some? ==> saved.value.bootId == boot && saved.value.execution == execution && !saved.value.resumeAllowed
      ensures ok ==> Now().running == {}
      ensures !ok && !hindered ==> now >= began + 120 && Now().running != {} && forall u | u in Now().running :: u in Items() && Items()[u].stopRequested
      ensures old(trace) <= trace
    {
      hide InStep, Recorded, FitsIn, AskedKept, SubmittedStopped;
      var queue;
      queue, ok := OpenQueue(execution);
      began := now;
      if !ok { return; }
      var deadline := now + 120;
      while true
        invariant Durable() && InStep(queue.items)
        invariant submitted == old(submitted) && SameHeader(queue, Queue(boot, execution, false, map[]))
        invariant old(trace) <= trace && deadline == began + 120
        decreases if now < deadline then deadline - now else 0
      {
        var active;
        queue, active, ok := Inventory(queue);
        if !ok || active == [] { return; }
        assert active[0] in Now().running;
        queue, ok := StopActive(queue, active);
        if !ok || now >= deadline { return false, began; }
        now := now + 2;
      }
    }

    method StopActive(queue: Queue, active: seq<Upid>) returns (q: Queue, ok: bool)
      requires Durable() && active != [] && (forall u | u in active :: u in queue.items) && (if queue.items == map[] then saved.None? else saved == Some(queue))
      modifies `tasks, `now, `saved, `keeper, `asked, `trace, `hindered
      ensures Durable() && now >= old(now) && SameHeader(q, queue) && (ok ==> InStep(q.items))
      ensures ok ==> forall u | u in active :: u in Items() && Items()[u].stopRequested && (queue.items[u].stopRequested || u in asked)
      ensures old(trace) <= trace && Now().running == old(Now()).running && (old(hindered) || !ok ==> hindered)
    {
      assert active[0] in queue.items;
      q, ok := StopAll(queue, active);
      if ok { SavedIsInStep(q.items); }
    }
  }
}
