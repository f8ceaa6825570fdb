// One shared fetch for each segment address: requests that join it, the task that owns it, and
// what is left when either goes away. Every step runs under the fetch map's lock or touches only
// its own task or waiter.
module SingleFlight {
  import opened Outcomes
  import SegmentCaches

  const SLOTS := 16
  const NO_SLOT := "network fetch capacity exhausted"
  const STOPPED := "shared segment fetch stopped"

  type Reply = Result<SegmentCaches.Bytes, string>

  // A watch channel: `open` while its sender, the task's, exists.
  datatype Channel = Channel(address: string, value: Option<Reply>, open: bool)

  datatype Stage = Fetching | Published | Unlisted

  // A waiter refused a slot has no channel.
  datatype Waiter = Waiter(address: string, channel: Option<nat>, answer: Option<Reply>)

  // Channels are never reused, so a channel is its index.
  datatype Flights = Flights(
    listed: map<string, nat>,
    channels: seq<Channel>,
    tasks: map<nat, Stage>,
    others: nat,
    free: nat,
    waiters: map<nat, Waiter>)

  datatype Event =
    | Request(w: nat, address: string)
    // The fetch is over: data, an error, or the deadline's.
    | Publish(c: nat, reply: Reply)
    | Unlist(c: nat)
    | End(c: nat)
    | Crash(c: nat)
    | Look(w: nat)
    | SeeStopped(w: nat)
    | Leave(w: nat)
    // The catalog and manifest loads share the slots.
    | TakeSlot
    | GiveSlot

  const Idle := Flights(map[], [], map[], 0, SLOTS, map[])

  predicate Waits(f: Flights, w: nat) {
    && w in f.waiters && f.waiters[w].answer.None?
    && f.waiters[w].channel.Some? && f.waiters[w].channel.value < |f.channels|
  }

  function Answer(f: Flights, w: nat, reply: Reply): Flights
    requires w in f.waiters
  {
    f.(waiters := f.waiters[w := f.waiters[w].(answer := Some(reply))])
  }

  // Remove the address's entry if it is this channel's.
  function Delisted(listed: map<string, nat>, address: string, c: nat): map<string, nat> {
    if address in listed && listed[address] == c then map a | a in listed && a != address :: listed[a] else listed
  }

  function DoRequest(f: Flights, w: nat, address: string): Flights {
    if address in f.listed then f.(waiters := f.waiters[w := Waiter(address, Some(f.listed[address]), None)])
    else if f.free == 0 then f.(waiters := f.waiters[w := Waiter(address, None, Some(Err(NO_SLOT)))])
    else
      var c := |f.channels|;
      f.(listed := f.listed[address := c],
         channels := f.channels + [Channel(address, None, true)],
         tasks := f.tasks[c := Fetching],
         free := f.free - 1,
         waiters := f.waiters[w := Waiter(address, Some(c), None)])
  }

  function Without(tasks: map<nat, Stage>, c: nat): map<nat, Stage> {
    map d | d in tasks && d != c :: tasks[d]
  }

  // The task is gone: its slot is free and its sender dropped.
  function Gone(f: Flights, c: nat): Flights
    requires c < |f.channels|
  {
    f.(tasks := Without(f.tasks, c),
       free := f.free + 1,
       channels := f.channels[c := f.channels[c].(open := false)])
  }

  function Apply(f: Flights, e: Event): Flights {
    match e
    case Request(w, address) => if w in f.waiters then f else DoRequest(f, w, address)
    case Publish(c, reply) =>
      if c in f.tasks && f.tasks[c].Fetching? && c < |f.channels|
      then f.(tasks := f.tasks[c := Published], channels := f.channels[c := f.channels[c].(value := Some(reply))]) else f
    case Unlist(c) =>
      if c in f.tasks && f.tasks[c].Published? && c < |f.channels|
      then f.(tasks := f.tasks[c := Unlisted], listed := Delisted(f.listed, f.channels[c].address, c)) else f
    case End(c) => if c in f.tasks && f.tasks[c].Unlisted? && c < |f.channels| then Gone(f, c) else f
    case Crash(c) => if c in f.tasks && f.tasks[c].Fetching? && c < |f.channels| then Gone(f, c) else f
    case Look(w) =>
      if Waits(f, w) && f.channels[f.waiters[w].channel.value].value.Some?
      then Answer(f, w, f.channels[f.waiters[w].channel.value].value.value) else f
    case SeeStopped(w) =>
      if Waits(f, w) && f.channels[f.waiters[w].channel.value].value.None? && !f.channels[f.waiters[w].channel.value].open
      then Answer(f.(listed := Delisted(f.listed, f.waiters[w].address, f.waiters[w].channel.value)), w, Err(STOPPED)) else f
    case Leave(w) => f.(waiters := map x | x in f.waiters && x != w :: f.waiters[x])
    case TakeSlot => if f.free > 0 then f.(free := f.free - 1, others := f.others + 1) else f
    case GiveSlot => if f.others > 0 then f.(free := f.free + 1, others := f.others - 1) else f
  }

  function Run(f: Flights, events: seq<Event>): Flights {
    if |events| == 0 then f else Apply(Run(f, events[..|events| - 1]), events[|events| - 1])
  }

  // -- The invariant --

  predicate Working(f: Flights, c: nat) {
    c in f.tasks && !f.tasks[c].Unlisted?
  }

  ghost predicate ListedOk(f: Flights, a: string)
    requires a in f.listed
  {
    var c := f.listed[a];
    && c < |f.channels| && f.channels[c].address == a
    && (Working(f, c) || (c !in f.tasks && f.channels[c].value.None?))
  }

  ghost predicate TaskOk(f: Flights, c: nat)
    requires c in f.tasks
  {
    && c < |f.channels|
    && f.channels[c].open
    && (f.tasks[c].Fetching? <==> f.channels[c].value.None?)
    && (Working(f, c) ==> f.channels[c].address in f.listed && f.listed[f.channels[c].address] == c)
  }

  ghost predicate AnswerOk(f: Flights, w: Waiter) {
    match w.channel
    case None => w.answer == Some(Err(NO_SLOT))
    case Some(c) =>
      && c < |f.channels| && f.channels[c].address == w.address
      && (w.answer.Some? ==>
            || f.channels[c].value == w.answer
            || (w.answer == Some(Err(STOPPED)) && !f.channels[c].open && f.channels[c].value.None?))
  }

  ghost predicate ListsOk(f: Flights) {
    forall a :: a in f.listed ==> ListedOk(f, a)
  }

  ghost predicate TasksOk(f: Flights) {
    && (forall c :: c in f.tasks ==> TaskOk(f, c))
    && (forall c :: 0 <= c < |f.channels| && c !in f.tasks ==> !f.channels[c].open)
  }

  ghost predicate WaitersOk(f: Flights) {
    forall w :: w in f.waiters ==> AnswerOk(f, f.waiters[w])
  }

  ghost predicate Inv(f: Flights) {
    && ListsOk(f)
    && TasksOk(f)
    && WaitersOk(f)
    && |f.tasks| + f.others + f.free == SLOTS
  }

  lemma RemovedCount(m: map<nat, Stage>, c: nat)
    requires c in m
    ensures |Without(m, c)| == |m| - 1
  {
    var n := Without(m, c);
    assert n.Keys == m.Keys - {c};
    assert |n| == |n.Keys| && |m| == |m.Keys|;
  }

  lemma AddedCount(m: map<nat, Stage>, c: nat, s: Stage)
    ensures |m[c := s]| == if c in m then |m| else |m| + 1
  {
    assert m[c := s].Keys == m.Keys + {c};
    assert |m[c := s]| == |m[c := s].Keys| && |m| == |m.Keys|;
  }

  // A channel gains a value, or closes, once; the waiters' answers stand.
  ghost predicate ChannelsGrow(f: Flights, g: Flights) {
    && |f.channels| <= |g.channels|
    && (forall c :: 0 <= c < |f.channels| ==>
          && g.channels[c].address == f.channels[c].address
          && (f.channels[c].value.Some? ==> g.channels[c].value == f.channels[c].value)
          && (!f.channels[c].open ==> g.channels[c] == f.channels[c]))
  }

  lemma WaitersKept(f: Flights, g: Flights)
    requires WaitersOk(f) && ChannelsGrow(f, g) && g.waiters == f.waiters
    ensures WaitersOk(g)
  {
    forall w | w in g.waiters ensures AnswerOk(g, g.waiters[w]) {
      assert AnswerOk(f, f.waiters[w]);
    }
  }

  lemma {:induction false} RequestKeeps(f: Flights, w: nat, address: string)
    requires Inv(f) && w !in f.waiters
    ensures Inv(DoRequest(f, w, address))
  {
    hide ListedOk, TaskOk;
    AddedCount(f.tasks, |f.channels|, Fetching);
    NewChannel(f);
    RequestLists(f, w, address);
    RequestTasks(f, w, address);
    assert address in f.listed ==> ListedOk(f, address);
    ListedChannel(f, address);
    hide ListsOk, TasksOk;
    RequestWaiters(f, w, address);
  }

  lemma ListedChannel(f: Flights, a: string)
    ensures a in f.listed && ListedOk(f, a) ==> f.listed[a] < |f.channels| && f.channels[f.listed[a]].address == a
  {
  }

  lemma RequestLists(f: Flights, w: nat, address: string)
    requires ListsOk(f)
    ensures ListsOk(DoRequest(f, w, address))
  {
    var g := DoRequest(f, w, address);
    forall a | a in g.listed ensures ListedOk(g, a) {
      assert a in f.listed ==> ListedOk(f, a);
    }
  }

  lemma RequestTasks(f: Flights, w: nat, address: string)
    requires TasksOk(f) && |f.channels| !in f.tasks
    ensures TasksOk(DoRequest(f, w, address))
  {
    var g := DoRequest(f, w, address);
    forall c | c in g.tasks ensures TaskOk(g, c) {
      assert c in f.tasks ==> TaskOk(f, c);
    }
  }

  lemma RequestWaiters(f: Flights, w: nat, address: string)
    requires WaitersOk(f) && w !in f.waiters
    requires address in f.listed ==> f.listed[address] < |f.channels| && f.channels[f.listed[address]].address == address
    ensures WaitersOk(DoRequest(f, w, address))
  {
    var g := DoRequest(f, w, address);
    forall x | x in g.waiters ensures AnswerOk(g, g.waiters[x]) {
      assert x in f.waiters ==> AnswerOk(f, f.waiters[x]);
    }
  }

  lemma PublishKeeps(f: Flights, c: nat, reply: Reply)
    requires Inv(f) && c in f.tasks && f.tasks[c].Fetching?
    ensures Inv(Apply(f, Publish(c, reply)))
  {
    var g := Apply(f, Publish(c, reply));
    AddedCount(f.tasks, c, Published);
    assert TaskOk(f, c);
    WaitersKept(f, g);
    hide WaitersOk;
    forall a | a in g.listed ensures ListedOk(g, a) { assert ListedOk(f, a); }
    forall d | d in g.tasks ensures TaskOk(g, d) { assert TaskOk(f, d); }
  }

  lemma UnlistKeeps(f: Flights, c: nat)
    requires Inv(f) && c in f.tasks && f.tasks[c].Published?
    ensures Inv(Apply(f, Unlist(c)))
  {
    var g := Apply(f, Unlist(c));
    AddedCount(f.tasks, c, Unlisted);
    assert TaskOk(f, c);
    WaitersKept(f, g);
    hide WaitersOk;
    forall a | a in g.listed ensures ListedOk(g, a) { assert ListedOk(f, a); }
    forall d | d in g.tasks ensures TaskOk(g, d) { assert TaskOk(f, d); }
  }

  lemma GoneKeeps(f: Flights, c: nat)
    requires Inv(f) && c in f.tasks && !f.tasks[c].Published? && c < |f.channels|
    ensures Inv(Gone(f, c))
  {
    var g := Gone(f, c);
    RemovedCount(f.tasks, c);
    assert TaskOk(f, c);
    WaitersKept(f, g);
    hide WaitersOk;
    forall a | a in g.listed ensures ListedOk(g, a) { assert ListedOk(f, a); }
    forall d | d in g.tasks ensures TaskOk(g, d) { assert TaskOk(f, d); }
  }

  lemma StopKeeps(f: Flights, w: nat)
    requires Inv(f)
    ensures Inv(Apply(f, SeeStopped(w)))
  {
    var g := Apply(f, SeeStopped(w));
    forall a | a in g.listed ensures ListedOk(g, a) { assert ListedOk(f, a); }
    forall d | d in g.tasks ensures TaskOk(g, d) { assert TaskOk(f, d); }
    forall x | x in g.waiters ensures AnswerOk(g, g.waiters[x]) { assert AnswerOk(f, f.waiters[x]); }
  }

  lemma OnlyWaiters(f: Flights, g: Flights)
    requires ListsOk(f) && TasksOk(f) && g.listed == f.listed && g.channels == f.channels && g.tasks == f.tasks
    ensures ListsOk(g) && TasksOk(g)
  {
    forall a | a in g.listed ensures ListedOk(g, a) { assert ListedOk(f, a); }
    forall d | d in g.tasks ensures TaskOk(g, d) { assert TaskOk(f, d); }
  }

  lemma LookKeeps(f: Flights, w: nat)
    requires Inv(f)
    ensures Inv(Apply(f, Look(w)))
  {
    var g := if Waits(f, w) && f.channels[f.waiters[w].channel.value].value.Some?
             then Answer(f, w, f.channels[f.waiters[w].channel.value].value.value) else f;
    assert Apply(f, Look(w)) == g;
    hide Apply;
    OnlyWaiters(f, g);
    hide ListsOk, TasksOk;
    forall x | x in g.waiters ensures AnswerOk(g, g.waiters[x]) { assert AnswerOk(f, f.waiters[x]); }
  }

  lemma QuietKeeps(f: Flights, e: Event)
    requires Inv(f) && (e.Leave? || e.TakeSlot? || e.GiveSlot?)
    ensures Inv(Apply(f, e))
  {
    var g := Apply(f, e);
    OnlyWaiters(f, g);
    hide ListsOk, TasksOk, Waits;
    forall x | x in g.waiters ensures AnswerOk(g, g.waiters[x]) { assert AnswerOk(f, f.waiters[x]); }
  }

  lemma StepKeeps(f: Flights, e: Event)
    requires Inv(f)
    ensures Inv(Apply(f, e))
  {
    hide Inv, DoRequest, Gone, Delisted, Answer;
    match e {
      case Request(w, address) => if w !in f.waiters { RequestKeeps(f, w, address); }
      case Publish(c, reply) => if c in f.tasks && f.tasks[c].Fetching? { PublishKeeps(f, c, reply); }
      case Unlist(c) => if c in f.tasks && f.tasks[c].Published? { UnlistKeeps(f, c); }
      case End(c) => if c in f.tasks && f.tasks[c].Unlisted? && c < |f.channels| { GoneKeeps(f, c); }
      case Crash(c) => if c in f.tasks && f.tasks[c].Fetching? && c < |f.channels| { GoneKeeps(f, c); }
      case SeeStopped(w) => StopKeeps(f, w);
      case Look(w) => LookKeeps(f, w);
      case _ => QuietKeeps(f, e);
    }
  }

  lemma IdleOk()
    ensures Inv(Idle)
  {
  }

  lemma {:induction false} RunKeeps(f: Flights, events: seq<Event>)
    requires Inv(f)
    ensures Inv(Run(f, events))
  {
    hide Inv, Apply;
    if |events| > 0 {
      RunKeeps(f, events[..|events| - 1]);
      StepKeeps(Run(f, events[..|events| - 1]), events[|events| - 1]);
    }
  }

  // -- What every run promises --

  predicate SameWork(f: Flights, c: nat, d: nat) {
    && Working(f, c) && Working(f, d)
    && c < |f.channels| && d < |f.channels| && f.channels[c].address == f.channels[d].address
  }

  // At most one task is at work on an address, it is the one the map lists, and no more than
  // sixteen tasks hold slots.
  lemma OneTaskPerAddress(f: Flights, events: seq<Event>, c: nat, d: nat)
    requires Inv(f)
    ensures var g := Run(f, events);
      && (SameWork(g, c, d) ==> c == d)
      && |g.tasks| <= 16
  {
    RunKeeps(f, events);
    var g := Run(f, events);
    hide ListsOk, WaitersOk;
    assert Working(g, c) ==> TaskOk(g, c);
    assert Working(g, d) ==> TaskOk(g, d);
  }

  // So a service that starts with nothing in flight is consistent after any run.
  lemma RunFromIdle(events: seq<Event>, c: nat, d: nat)
    ensures var g := Run(Idle, events);
      && Inv(g)
      && (SameWork(g, c, d) ==> c == d)
      && |g.tasks| <= 16
  {
    hide Inv;
    IdleOk();
    RunKeeps(Idle, events);
    OneTaskPerAddress(Idle, events, c, d);
  }

  // An entry leaves the map only by its own task, after publishing, or by one of its own waiters,
  // after the task has died without publishing.
  lemma RemovedOnlyByItsOwn(f: Flights, e: Event, a: string)
    requires Inv(f) && a in f.listed
    ensures var g := Apply(f, e); var c := f.listed[a];
      (a in g.listed && g.listed[a] == c)
      || (a !in g.listed && e == Unlist(c) && f.channels[c].value.Some?)
      || (a !in g.listed && e.SeeStopped? && Waits(f, e.w) && f.waiters[e.w].channel == Some(c)
          && c !in f.tasks && f.channels[c].value.None?)
  {
    hide TaskOk, WaitersOk;
    var c := f.listed[a];
    assert ListedOk(f, a);
    StoppedIsGone(f, c);
  }

  lemma StoppedIsGone(f: Flights, c: nat)
    requires TasksOk(f) && c < |f.channels|
    ensures !f.channels[c].open ==> c !in f.tasks
    ensures c in f.tasks && f.tasks[c].Published? ==> f.channels[c].value.Some?
  {
    if c in f.tasks {
      assert TaskOk(f, c);
    }
  }

  ghost predicate Crashed(f: Flights, c: nat) {
    c < |f.channels| && !f.channels[c].open && f.channels[c].value.None?
  }

  // Whoever else joined, left or crashed, a waiter's answer is what the one task of its channel
  // published for its address, or the stop error of a task that died without publishing.
  lemma {:induction false} AnswersAreTheTasks(f: Flights, events: seq<Event>, w: nat)
    requires Inv(f)
    requires w in Run(f, events).waiters && Run(f, events).waiters[w].answer.Some?
    ensures var g := Run(f, events); var waiter := g.waiters[w];
      match waiter.channel
      case None => waiter.answer == Some(Err(NO_SLOT))
      case Some(c) =>
        && c < |g.channels| && g.channels[c].address == waiter.address
        && (g.channels[c].value == waiter.answer || (waiter.answer == Some(Err(STOPPED)) && Crashed(g, c)))
  {
    RunKeeps(f, events);
    assert AnswerOk(Run(f, events), Run(f, events).waiters[w]);
  }

  // Once its task has published or gone, a waiter can always be answered.
  lemma NoWaiterIsStranded(f: Flights, w: nat)
    requires Inv(f) && Waits(f, w)
    requires !(f.waiters[w].channel.value in f.tasks && f.tasks[f.waiters[w].channel.value].Fetching?)
    ensures Apply(f, Look(w)).waiters[w].answer.Some? || Apply(f, SeeStopped(w)).waiters[w].answer == Some(Err(STOPPED))
  {
    hide ListsOk, WaitersOk;
    var c := f.waiters[w].channel.value;
    assert c in f.tasks ==> TaskOk(f, c);
  }

  ghost predicate Answered(f: Flights, w: nat, reply: Reply) {
    w in f.waiters && f.waiters[w].answer == Some(reply)
  }

  // Whoever asks for an address that is being fetched joins that fetch, needs no slot, starts nothing,
  // and gets its reply.
  lemma {:induction false} JoinersShareOneFetch(f: Flights, a: string, w: nat, x: nat, reply: Reply)
    requires Inv(f) && a in f.listed && f.listed[a] in f.tasks && f.tasks[f.listed[a]].Fetching?
    requires w != x && w !in f.waiters && x !in f.waiters
    ensures var g := Apply(Apply(f, Request(w, a)), Request(x, a)); var h := Apply(g, Publish(f.listed[a], reply));
      && g.tasks == f.tasks && g.free == f.free && g.channels == f.channels && g.listed == f.listed
      && Answered(Apply(h, Look(w)), w, reply) && Answered(Apply(h, Look(x)), x, reply)
  {
    hide TaskOk, WaitersOk, TasksOk;
    var c := f.listed[a];
    assert ListedOk(f, a);
    var one := Apply(f, Request(w, a));
    assert one == f.(waiters := f.waiters[w := Waiter(a, Some(c), None)]);
    var g := Apply(one, Request(x, a));
    assert g == f.(waiters := f.waiters[w := Waiter(a, Some(c), None)][x := Waiter(a, Some(c), None)]);
    var h := Apply(g, Publish(c, reply));
    assert h.waiters == g.waiters && h.channels[c].value == Some(reply) && |h.channels| == |f.channels|;
    hide ListsOk;
    assert Waits(h, w) && Waits(h, x);
  }

  // An address nobody is fetching is fetched by one new task while a slot is free, and otherwise its
  // requester is told so and nothing else changes.
  lemma {:induction false} FetchTakesOneSlot(f: Flights, a: string, w: nat)
    requires Inv(f) && a !in f.listed && w !in f.waiters
    ensures var g := Apply(f, Request(w, a));
      && w in g.waiters && g.waiters[w].address == a
      && (f.free > 0 ==>
            && a in g.listed && Working(g, g.listed[a]) && g.listed[a] !in f.tasks && g.free == f.free - 1
            && g.tasks.Keys == f.tasks.Keys + {g.listed[a]} && g.waiters[w].channel == Some(g.listed[a]) && g.waiters[w].answer.None?)
      && (f.free == 0 ==> g == f.(waiters := g.waiters) && g.waiters[w].answer == Some(Err("network fetch capacity exhausted")))
  {
    hide WaitersOk, ListsOk, TaskOk;
    NewChannel(f);
    hide TasksOk, Inv;
  }

  lemma NewChannel(f: Flights)
    requires TasksOk(f)
    ensures |f.channels| !in f.tasks
  {
    forall c | c in f.tasks ensures c < |f.channels| {
      assert TaskOk(f, c);
    }
  }

  // A task's death poisons nothing: the next requester is told so, and the one after starts afresh.
  lemma FreshAfterCrash(f: Flights, a: string, w: nat, x: nat)
    requires Inv(f)
    requires a in f.listed && f.listed[a] !in f.tasks && f.free > 0
    requires w != x && w !in f.waiters && x !in f.waiters
    ensures var told := Apply(Apply(f, Request(w, a)), SeeStopped(w));
      var g := Apply(told, Request(x, a));
      && told.waiters[w].answer == Some(Err(STOPPED)) && a !in told.listed
      && a in g.listed && g.listed[a] == |f.channels| && Working(g, g.listed[a])
  {
    hide TaskOk, WaitersOk;
    var c := f.listed[a];
    assert ListedOk(f, a);
    assert !f.channels[c].open;
    hide TasksOk, ListsOk;
    var joined := Apply(f, Request(w, a));
    assert Waits(joined, w);
  }
}
