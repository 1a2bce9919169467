/**
 Runs of the server as seen from outside: which clients were started, linked and left, and which
 blocks the device delivered when. Every client of a run is where it would be if it had been alone.
 */
module ServerHistory {
  import opened ServerSpec
  import Admission
  import QueueSpec
  import W = WorkerSpec

  datatype Entry =
    | Started(id: nat, request: Admission.Request, setup: W.Setup)
    | Linked(id: nat)
    | HungUp(id: nat)
    | Left(id: nat)
    | Worked(id: nat, step: W.Event)
    | Delivered(block: W.Block)

  /** What is to be seen of one step. */
  ghost function Observed(s: Server, e: Event): seq<Entry>
    requires WorkersOk(s) && Enabled(s, e)
  {
    match e
    case Start(r, setup) => [Started(s.counter, r, setup)]
    case Register(_) => if Step(s, e).acceptor == Accepting then [Linked(s.acceptor.client.id)] else []
    case Resume(_) => if Step(s, e).acceptor == Accepting then [Linked(s.acceptor.client.id)] else []
    case Leave(i) => [Left(s.clients[i].id)]
    case LeaveUnlinked => [Left(s.acceptor.client.id)]
    case Work(i, step) => [Worked(s.clients[i].id, step)]
    case WorkUnlinked(step) => [Worked(s.acceptor.client.id, step)]
    case Deliver(block) => [Delivered(block)]
    case HangUp => [HungUp(s.clients[0].id)]
    case _ => []
  }

  ghost function Seen(s: Server, e: Event): seq<Entry>
    requires WorkersOk(s)
  {
    if Enabled(s, e) then Observed(s, e) else []
  }

  ghost function Story(s: Server, events: seq<Event>): seq<Entry>
    requires WorkersOk(s)
    decreases |events|
  {
    if events == [] then []
    else Seen(s, events[0]) + Story(Next(s, events[0]), events[1..])
  }

  // ---- One client, as if it were alone ----

  datatype Life = Unborn | Life(request: Admission.Request, linked: bool, client: Client)

  ghost predicate Sane(l: Life) {
    l.Life? ==> ClientOk(l.client)
  }

  /** What an entry means for the client with the given number. */
  ghost function Lived(l: Life, entry: Entry, id: nat): (r: Life)
    requires Sane(l)
    ensures Sane(r)
  {
    match entry
    case Started(k, r, setup) =>
      if k == id && l.Unborn? && W.ValidSetup(setup) then
        NewClientOk(id, r, setup);
        Life(r, false, Client(id, r.bandFreq as nat, true, W.Initial(setup)))
      else l
    case Linked(k) => if k == id && l.Life? then l.(linked := true) else l
    case HungUp(k) =>
      if k == id && l.Life? then
        MutedOk(l.client);
        l.(client := l.client.(worker := W.Step(l.client.worker, W.Close)))
      else l
    case Left(k) =>
      if k == id && l.Life? && l.client.running then
        StoppedOk(l.client);
        l.(client := l.client.(running := false, worker := W.Disconnected(l.client.worker)))
      else l
    case Worked(k, step) =>
      if k == id && l.Life? && OwnStep(step) then
        WorkedOk(l.client, step);
        l.(client := l.client.(worker := W.Step(l.client.worker, step)))
      else l
    case Delivered(block) =>
      if l.Life? && l.linked && l.client.running then
        FedOk(l.client, block);
        l.(client := l.client.(worker := W.Step(l.client.worker, W.Put(block))))
      else l
  }

  ghost function LifeOf(story: seq<Entry>, id: nat): (l: Life)
    ensures Sane(l)
  {
    if story == [] then Unborn
    else Lived(LifeOf(story[..|story| - 1], id), story[|story| - 1], id)
  }

  lemma LifeGoesOn(story: seq<Entry>, entry: Entry, id: nat)
    ensures LifeOf(story + [entry], id) == Lived(LifeOf(story, id), entry, id)
  {
    assert (story + [entry])[..|story|] == story;
  }

  /** The entry means nothing for this client. */
  predicate Passes(entry: Entry, id: nat, fed: bool) {
    match entry
    case Delivered(_) => !fed
    case _ => entry.id != id
  }

  // ---- The server's clients are these ----

  ghost predicate ClientRecorded(s: Server, story: seq<Entry>, c: Client, linked: bool) {
    var l := LifeOf(story, c.id);
    && c.id < s.counter
    && l.Life? && l.linked == linked && l.client == c
    && s.admits(l.request, c.worker.setup) && c.band == l.request.bandFreq as nat
  }

  ghost predicate DistinctIds(clients: seq<Client>) {
    forall i, j :: 0 <= i < j < |clients| ==> clients[i].id != clients[j].id
  }

  /** A client is linked, and leaves, at most once, and all that is told of it only after it was started. */
  ghost predicate WellTold(story: seq<Entry>) {
    story == [] ||
    (var before, last := story[..|story| - 1], story[|story| - 1];
     && WellTold(before)
     && match last
        case Linked(id) => LifeOf(before, id).Life? && !LifeOf(before, id).linked
        case Left(id) => LifeOf(before, id).Life? && LifeOf(before, id).client.running
        case HungUp(id) => LifeOf(before, id).Life?
        case _ => true)
  }

  ghost predicate NobodyYet(s: Server, story: seq<Entry>) {
    forall id: nat :: id >= s.counter ==> LifeOf(story, id).Unborn?
  }

  ghost predicate Recorded(s: Server, story: seq<Entry>) {
    && (forall i :: 0 <= i < |s.clients| ==> ClientRecorded(s, story, s.clients[i], true))
    && (HasClient(s.acceptor) ==> ClientRecorded(s, story, s.acceptor.client, false))
    && DistinctIds(s.clients) && NobodyYet(s, story) && WellTold(story)
  }

  /** After a step or a run the story is still the one of the same server. */
  ghost predicate Follows(s: Server, s': Server, story: seq<Entry>) {
    s'.admits == s.admits && Recorded(s', story)
  }

  lemma Kept(s: Server, s': Server, story: seq<Entry>, entry: Entry, c: Client, linked: bool)
    requires ClientRecorded(s, story, c, linked) && s'.admits == s.admits && s'.counter >= s.counter
    requires Passes(entry, c.id, linked && c.running)
    ensures ClientRecorded(s', story + [entry], c, linked)
  {
    LifeGoesOn(story, entry, c.id);
  }

  /** Linked and unlinked clients are different ones. */
  lemma NewcomerDiffers(s: Server, story: seq<Entry>, i: nat)
    requires Recorded(s, story) && HasClient(s.acceptor) && i < |s.clients|
    ensures s.clients[i].id != s.acceptor.client.id
  {
  }

  lemma StillNobody(s: Server, s': Server, story: seq<Entry>, entry: Entry)
    requires NobodyYet(s, story) && s'.counter >= s.counter
    requires entry.Delivered? || entry.id < s'.counter
    ensures NobodyYet(s', story + [entry])
  {
    forall id: nat | id >= s'.counter
      ensures LifeOf(story + [entry], id).Unborn?
    {
      LifeGoesOn(story, entry, id);
    }
  }

  lemma ToldOn(story: seq<Entry>, entry: Entry)
    requires WellTold(story)
    requires entry.Linked? ==> LifeOf(story, entry.id).Life? && !LifeOf(story, entry.id).linked
    requires entry.Left? ==> LifeOf(story, entry.id).Life? && LifeOf(story, entry.id).client.running
    requires entry.HungUp? ==> LifeOf(story, entry.id).Life?
    ensures WellTold(story + [entry])
  {
    assert (story + [entry])[..|story|] == story;
  }

  /** A new client. */
  lemma StartRecorded(s: Server, story: seq<Entry>, r: Admission.Request, setup: W.Setup)
    requires WorkersOk(s) && Recorded(s, story) && Enabled(s, Start(r, setup))
    ensures Follows(s, Step(s, Start(r, setup)), story + [Started(s.counter, r, setup)])
  {
    var s', entry := Step(s, Start(r, setup)), Started(s.counter, r, setup);
    forall i | 0 <= i < |s.clients|
      ensures ClientRecorded(s', story + [entry], s.clients[i], true)
    {
      Kept(s, s', story, entry, s.clients[i], true);
    }
    LifeGoesOn(story, entry, s.counter);
    StillNobody(s, s', story, entry);
    ToldOn(story, entry);
  }

  lemma RefuseRecorded(s: Server, story: seq<Entry>)
    requires WorkersOk(s) && Recorded(s, story) && s.acceptor == Accepting
    ensures Follows(s, Step(s, Refuse), story)
  {
    var s' := Step(s, Refuse);
    assert forall i :: 0 <= i < |s.clients| ==> ClientRecorded(s', story, s.clients[i], true);
  }

  lemma TailDistinct(clients: seq<Client>)
    requires DistinctIds(clients) && clients != []
    ensures DistinctIds(clients[1..]) && forall i :: 0 <= i < |clients[1..]| ==> clients[1..][i] in clients
  {
  }

  lemma FindClient(clients: seq<Client>, c: Client) returns (j: nat)
    requires c in clients
    ensures j < |clients| && clients[j] == c
  {
    j :| 0 <= j < |clients| && clients[j] == c;
  }

  /** Fewer clients, nothing to be seen. */
  lemma FewerRecorded(s: Server, story: seq<Entry>, s': Server)
    requires Recorded(s, story) && s'.admits == s.admits && s'.counter == s.counter
    requires DistinctIds(s'.clients) && forall i :: 0 <= i < |s'.clients| ==> s'.clients[i] in s.clients
    requires HasClient(s'.acceptor) ==> HasClient(s.acceptor) && s'.acceptor.client == s.acceptor.client
    ensures Recorded(s', story)
  {
    forall i | 0 <= i < |s'.clients|
      ensures ClientRecorded(s', story, s'.clients[i], true)
    {
      var j := FindClient(s.clients, s'.clients[i]);
      assert ClientRecorded(s, story, s.clients[j], true);
    }
  }

  lemma {:induction false} RunningDistinct(clients: seq<Client>)
    requires DistinctIds(clients)
    ensures DistinctIds(Running(clients))
  {
    if clients == [] {
    } else {
      RunningDistinct(clients[1..]);
      RunningFacts(clients[1..]);
      forall j | 0 <= j < |Running(clients[1..])|
        ensures Running(clients[1..])[j].id != clients[0].id
      {
        var k := FindClient(clients[1..], Running(clients[1..])[j]);
        assert clients[1..][k] == clients[k + 1];
      }
    }
  }

  /** The newcomer is linked behind clients that were linked before. */
  lemma LinkRecorded(s: Server, story: seq<Entry>, s': Server, kept: seq<Client>)
    requires Recorded(s, story) && HasClient(s.acceptor) && s'.admits == s.admits && s'.counter == s.counter
    requires DistinctIds(kept) && forall i :: 0 <= i < |kept| ==> kept[i] in s.clients
    requires s'.clients == kept + [s.acceptor.client] && !HasClient(s'.acceptor)
    ensures Recorded(s', story + [Linked(s.acceptor.client.id)])
  {
    var c := s.acceptor.client;
    var entry := Linked(c.id);
    forall i | 0 <= i < |kept|
      ensures ClientRecorded(s', story + [entry], kept[i], true) && kept[i].id != c.id
    {
      var j := FindClient(s.clients, kept[i]);
      NewcomerDiffers(s, story, j);
      Kept(s, s', story, entry, s.clients[j], true);
    }
    NewcomerLinked(s, story, s');
    StillNobody(s, s', story, entry);
    ToldOn(story, entry);
    LastDistinct(kept, c);
  }

  lemma NewcomerLinked(s: Server, story: seq<Entry>, s': Server)
    requires Recorded(s, story) && HasClient(s.acceptor) && s'.admits == s.admits && s'.counter == s.counter
    ensures var c := s.acceptor.client;
            ClientRecorded(s', story + [Linked(c.id)], c, true)
  {
    LifeGoesOn(story, Linked(s.acceptor.client.id), s.acceptor.client.id);
  }

  lemma LastDistinct(clients: seq<Client>, c: Client)
    requires DistinctIds(clients) && forall i :: 0 <= i < |clients| ==> clients[i].id != c.id
    ensures DistinctIds(clients + [c])
  {
  }

  /** The newcomer is linked or the acceptor holds on to it. */
  lemma RegisterShape(s: Server, c: Client, deviceStarts: bool)
    requires s.acceptor == Starting(c)
    ensures var t, kept := RegisterClient(s, c, deviceStarts), Running(s.clients);
            && t.admits == s.admits && t.counter == s.counter
            && (t.acceptor == Accepting ==> t.clients == kept + [c])
            && (t.acceptor != Accepting ==> t.clients == kept && HasClient(t.acceptor) && t.acceptor.client == c)
  {
  }

  lemma RegisterRecorded(s: Server, story: seq<Entry>, deviceStarts: bool)
    requires WorkersOk(s) && Recorded(s, story) && Enabled(s, Register(deviceStarts))
    ensures Follows(s, Step(s, Register(deviceStarts)), story + Observed(s, Register(deviceStarts)))
  {
    var s' := RegisterClient(s, s.acceptor.client, deviceStarts);
    assert Step(s, Register(deviceStarts)) == s';
    RegisterShape(s, s.acceptor.client, deviceStarts);
    KeptDistinct(s.clients);
    if s'.acceptor == Accepting {
      LinkRecorded(s, story, s', Running(s.clients));
    } else {
      FewerRecorded(s, story, s');
      assert story + [] == story;
    }
  }

  lemma KeptDistinct(clients: seq<Client>)
    requires DistinctIds(clients)
    ensures DistinctIds(Running(clients))
    ensures forall i :: 0 <= i < |Running(clients)| ==> Running(clients)[i] in clients
  {
    RunningFacts(clients);
    RunningDistinct(clients);
  }

  lemma ResumeRecorded(s: Server, story: seq<Entry>, deviceStarts: bool)
    requires WorkersOk(s) && Recorded(s, story) && Enabled(s, Resume(deviceStarts))
    ensures Follows(s, Step(s, Resume(deviceStarts)), story + Observed(s, Resume(deviceStarts)))
  {
    var s' := Step(s, Resume(deviceStarts));
    if s'.acceptor == Accepting {
      LinkRecorded(s, story, s', []);
    } else {
      FewerRecorded(s, story, s');
      assert story + [] == story;
    }
  }

  /** Linked client `i` becomes what the entry about it says. */
  lemma ChangeRecorded(s: Server, story: seq<Entry>, s': Server, entry: Entry, i: nat, c: Client)
    requires Recorded(s, story) && i < |s.clients| && !entry.Delivered? && !entry.Started? && !entry.Linked?
    requires entry.id == s.clients[i].id == c.id && c.band == s.clients[i].band
    requires entry.Left? ==> s.clients[i].running
    requires c.worker.setup == s.clients[i].worker.setup
    requires Lived(LifeOf(story, c.id), entry, c.id) == LifeOf(story, c.id).(client := c)
    requires s'.admits == s.admits && s'.counter == s.counter && s'.clients == s.clients[i := c]
    requires s'.acceptor == s.acceptor
    ensures Recorded(s', story + [entry])
  {
    forall j | 0 <= j < |s'.clients|
      ensures ClientRecorded(s', story + [entry], s'.clients[j], true)
    {
      if j == i {
        LifeGoesOn(story, entry, c.id);
      } else {
        Kept(s, s', story, entry, s.clients[j], true);
      }
    }
    if HasClient(s.acceptor) {
      NewcomerDiffers(s, story, i);
      Kept(s, s', story, entry, s.acceptor.client, false);
    }
    StillNobody(s, s', story, entry);
    ToldOn(story, entry);
  }

  /** And so does the client that the acceptor holds. */
  lemma NewcomerChangeRecorded(s: Server, story: seq<Entry>, s': Server, entry: Entry, c: Client)
    requires Recorded(s, story) && HasClient(s.acceptor) && !entry.Delivered? && !entry.Started? && !entry.Linked?
    requires entry.id == s.acceptor.client.id == c.id && c.band == s.acceptor.client.band
    requires entry.Left? ==> s.acceptor.client.running
    requires c.worker.setup == s.acceptor.client.worker.setup
    requires Lived(LifeOf(story, c.id), entry, c.id) == LifeOf(story, c.id).(client := c)
    requires s'.admits == s.admits && s'.counter == s.counter && s'.clients == s.clients
    requires s'.acceptor == WithClient(s.acceptor, c)
    ensures Recorded(s', story + [entry])
  {
    forall j | 0 <= j < |s.clients|
      ensures ClientRecorded(s', story + [entry], s.clients[j], true)
    {
      NewcomerDiffers(s, story, j);
      Kept(s, s', story, entry, s.clients[j], true);
    }
    LifeGoesOn(story, entry, c.id);
    StillNobody(s, s', story, entry);
    ToldOn(story, entry);
  }

  lemma LeaveRecorded(s: Server, story: seq<Entry>, i: nat)
    requires WorkersOk(s) && Recorded(s, story) && Enabled(s, Leave(i))
    ensures Follows(s, Step(s, Leave(i)), story + [Left(s.clients[i].id)])
  {
    var c := s.clients[i];
    StoppedOk(c);
    ChangeRecorded(s, story, Step(s, Leave(i)), Left(c.id), i, Stopped(c));
  }

  lemma LeaveUnlinkedRecorded(s: Server, story: seq<Entry>)
    requires WorkersOk(s) && Recorded(s, story) && Enabled(s, LeaveUnlinked)
    ensures Follows(s, Step(s, LeaveUnlinked), story + [Left(s.acceptor.client.id)])
  {
    var c := s.acceptor.client;
    StoppedOk(c);
    NewcomerChangeRecorded(s, story, Step(s, LeaveUnlinked), Left(c.id), Stopped(c));
  }

  lemma WorkRecorded(s: Server, story: seq<Entry>, i: nat, step: W.Event)
    requires WorkersOk(s) && Recorded(s, story) && Enabled(s, Work(i, step))
    ensures Follows(s, Step(s, Work(i, step)), story + [Worked(s.clients[i].id, step)])
  {
    var c := s.clients[i];
    ChangeRecorded(s, story, Step(s, Work(i, step)), Worked(c.id, step), i, c.(worker := W.Step(c.worker, step)));
  }

  lemma WorkUnlinkedRecorded(s: Server, story: seq<Entry>, step: W.Event)
    requires WorkersOk(s) && Recorded(s, story) && Enabled(s, WorkUnlinked(step))
    ensures Follows(s, Step(s, WorkUnlinked(step)), story + [Worked(s.acceptor.client.id, step)])
  {
    var c := s.acceptor.client;
    NewcomerChangeRecorded(s, story, Step(s, WorkUnlinked(step)), Worked(c.id, step),
                           c.(worker := W.Step(c.worker, step)));
  }

  lemma DeliverRecorded(s: Server, story: seq<Entry>, block: W.Block)
    requires WorkersOk(s) && Recorded(s, story) && Enabled(s, Deliver(block))
    ensures Follows(s, Step(s, Deliver(block)), story + [Delivered(block)])
  {
    var s', entry := Step(s, Deliver(block)), Delivered(block);
    FedAllOk(s.clients, block);
    forall i | 0 <= i < |s.clients|
      ensures ClientRecorded(s', story + [entry], s'.clients[i], true)
    {
      LifeGoesOn(story, entry, s.clients[i].id);
      assert s'.clients[i] == Fed(s.clients[i], block);
    }
    if HasClient(s.acceptor) {
      Kept(s, s', story, entry, s.acceptor.client, false);
    }
    StillNobody(s, s', story, entry);
    ToldOn(story, entry);
  }

  lemma HangUpRecorded(s: Server, story: seq<Entry>)
    requires WorkersOk(s) && Recorded(s, story) && Enabled(s, HangUp)
    ensures Follows(s, Step(s, HangUp), story + [HungUp(s.clients[0].id)])
  {
    var c := s.clients[0];
    MutedOk(c);
    ChangeRecorded(s, story, Step(s, HangUp), HungUp(c.id), 0, Muted(c));
  }

  /** A step that nobody sees. */
  lemma QuietRecorded(s: Server, story: seq<Entry>, e: Event)
    requires WorkersOk(s) && Recorded(s, story) && Enabled(s, e)
    requires e.Dismiss? || e.StopDevice? || e.Release? || e.Shutdown? || e.DrainHead? || e.DrainEnd?
    ensures Follows(s, Step(s, e), story)
  {
    QuietShape(s, e);
    if s.clients != [] {
      TailDistinct(s.clients);
    }
    FewerRecorded(s, story, Step(s, e));
  }

  lemma QuietShape(s: Server, e: Event)
    requires WorkersOk(s) && Enabled(s, e)
    requires e.Dismiss? || e.StopDevice? || e.Release? || e.Shutdown? || e.DrainHead? || e.DrainEnd?
    ensures var t := Step(s, e);
            && t.admits == s.admits && t.counter == s.counter && (t.acceptor == s.acceptor || !HasClient(t.acceptor))
            && (t.clients == s.clients || (s.clients != [] && t.clients == s.clients[1..]))
  {
  }

  lemma StepRecorded(s: Server, story: seq<Entry>, e: Event)
    requires WorkersOk(s) && Recorded(s, story) && Enabled(s, e)
    ensures Follows(s, Step(s, e), story + Observed(s, e))
  {
    assert story + [] == story;
    match e
    case Start(r, setup) => StartRecorded(s, story, r, setup);
    case Refuse => RefuseRecorded(s, story);
    case Register(deviceStarts) => RegisterRecorded(s, story, deviceStarts);
    case Resume(deviceStarts) => ResumeRecorded(s, story, deviceStarts);
    case Leave(i) => LeaveRecorded(s, story, i);
    case LeaveUnlinked => LeaveUnlinkedRecorded(s, story);
    case Work(i, step) => WorkRecorded(s, story, i, step);
    case WorkUnlinked(step) => WorkUnlinkedRecorded(s, story, step);
    case Deliver(block) => DeliverRecorded(s, story, block);
    case HangUp => HangUpRecorded(s, story);
    case _ => QuietRecorded(s, story, e);
  }

  lemma NextRecorded(s: Server, story: seq<Entry>, e: Event)
    requires WorkersOk(s) && Recorded(s, story)
    ensures Follows(s, Next(s, e), story + Seen(s, e))
  {
    if Enabled(s, e) {
      StepRecorded(s, story, e);
    } else {
      assert story + [] == story;
    }
  }

  lemma Associates<T>(a: seq<T>, b: seq<T>, c: seq<T>)
    ensures a + b + c == a + (b + c)
  {
  }

  lemma {:induction false} RunRecorded(s: Server, story: seq<Entry>, events: seq<Event>)
    requires WorkersOk(s) && Recorded(s, story)
    ensures Follows(s, Run(s, events), story + Story(s, events))
    decreases |events|
  {
    if events == [] {
      assert story + [] == story;
    } else {
      var s', seen := Next(s, events[0]), Seen(s, events[0]);
      NextRecorded(s, story, events[0]);
      RunRecorded(s', story + seen, events[1..]);
      Associates(story, seen, Story(s', events[1..]));
    }
  }

  // ---- What a client was fed: the blocks delivered between linking and leaving ----

  /** The blocks delivered while the client was linked and had not left. */
  function Received(story: seq<Entry>, id: nat): seq<W.Block> {
    if story == [] then []
    else
      var before, last := story[..|story| - 1], story[|story| - 1];
      Received(before, id)
      + if last.Delivered? && Linked(id) in before && Left(id) !in before then [last.block] else []
  }

  lemma ReceivedOn(story: seq<Entry>, last: Entry, id: nat)
    ensures Received(story + [last], id)
            == Received(story, id)
               + if last.Delivered? && Linked(id) in story && Left(id) !in story then [last.block] else []
  {
    assert (story + [last])[..|story|] == story;
  }

  function Deliveries(story: seq<Entry>): seq<W.Block> {
    if story == [] then []
    else
      Deliveries(story[..|story| - 1]) + if story[|story| - 1].Delivered? then [story[|story| - 1].block] else []
  }

  /** Before it is linked a client receives nothing. */
  lemma {:induction false} NothingBefore(story: seq<Entry>, id: nat)
    requires Linked(id) !in story
    ensures Received(story, id) == []
  {
    if story == [] {
    } else {
      NothingBefore(story[..|story| - 1], id);
    }
  }

  /** While it is linked, and until it leaves, it receives every delivery. */
  lemma {:induction false} EverythingSince(before: seq<Entry>, since: seq<Entry>, id: nat)
    requires Linked(id) !in before && Left(id) !in before && Left(id) !in since
    ensures Received(before + [Linked(id)] + since, id) == Deliveries(since)
  {
    var story := before + [Linked(id)];
    if since == [] {
      assert story + since == story;
      ReceivedOn(before, Linked(id), id);
      NothingBefore(before, id);
    } else {
      var front, last := since[..|since| - 1], since[|since| - 1];
      assert story + since == (story + front) + [last];
      EverythingSince(before, front, id);
      ReceivedOn(story + front, last, id);
      assert story[|before|] == Linked(id);
    }
  }

  /** After it has left it receives nothing more. */
  lemma {:induction false} NothingAfter(story: seq<Entry>, after: seq<Entry>, id: nat)
    requires Left(id) in story
    ensures Received(story + after, id) == Received(story, id)
  {
    if after == [] {
      assert story + after == story;
    } else {
      var front, last := after[..|after| - 1], after[|after| - 1];
      assert story + after == (story + front) + [last];
      NothingAfter(story, front, id);
      ReceivedOn(story + front, last, id);
    }
  }

  /** What a client that was linked and left has received is what was delivered in between. */
  lemma ReceivedIsWindow(before: seq<Entry>, since: seq<Entry>, after: seq<Entry>, id: nat)
    requires Linked(id) !in before && Left(id) !in before && Left(id) !in since
    ensures Received(before + [Linked(id)] + since + [Left(id)] + after, id) == Deliveries(since)
  {
    var story := before + [Linked(id)] + since;
    EverythingSince(before, since, id);
    ReceivedOn(story, Left(id), id);
    assert (story + [Left(id)])[|story|] == Left(id);
    NothingAfter(story + [Left(id)], after, id);
  }

  /** A client's flags and puts can be read off the story. */
  ghost predicate Tells(story: seq<Entry>, id: nat) {
    var l := LifeOf(story, id);
    && (l.Unborn? ==> Linked(id) !in story && Left(id) !in story)
    && (l.Life? ==>
          && (l.linked <==> Linked(id) in story) && (l.client.running <==> Left(id) !in story)
          && l.client.worker.trace.puts == Received(story, id))
  }

  lemma {:induction false} LifeTold(story: seq<Entry>, id: nat)
    requires WellTold(story)
    ensures Tells(story, id)
  {
    if story == [] {
    } else {
      var before, last := story[..|story| - 1], story[|story| - 1];
      assert story == before + [last];
      LifeTold(before, id);
      TellsOn(before, last, id);
    }
  }

  lemma InAppended(story: seq<Entry>, last: Entry, entry: Entry)
    ensures entry in story + [last] <==> entry in story || entry == last
  {
  }

  lemma TellsOn(story: seq<Entry>, last: Entry, id: nat)
    requires Tells(story, id)
    requires last.Linked? ==> LifeOf(story, last.id).Life?
    requires last.Left? ==> LifeOf(story, last.id).Life?
    ensures Tells(story + [last], id)
  {
    var l := LifeOf(story, id);
    LifeGoesOn(story, last, id);
    InAppended(story, last, Linked(id));
    InAppended(story, last, Left(id));
    ReceivedOn(story, last, id);
    if l.Life? {
      PutsOn(l, last, id);
    } else {
      NothingBefore(story, id);
      BornOn(last, id);
    }
  }

  lemma BornOn(last: Entry, id: nat)
    ensures var r := Lived(Unborn, last, id);
            r.Life? ==> last.Started? && !r.linked && r.client.running && r.client.worker.trace.puts == []
  {
  }

  lemma PutsOn(l: Life, last: Entry, id: nat)
    requires Sane(l) && l.Life?
    ensures var r := Lived(l, last, id);
            && r.Life? && (r.linked <==> l.linked || last == Linked(id))
            && (r.client.running <==> l.client.running && last != Left(id))
            && r.client.worker.trace.puts
               == l.client.worker.trace.puts
                  + if last.Delivered? && l.linked && l.client.running then [last.block] else []
  {
    if last.Delivered? {
      FedPuts(l, last.block, id);
    } else {
      var puts := l.client.worker.trace.puts;
      assert puts + [] == puts;
      OthersPut(l, last, id);
    }
  }

  lemma OthersPut(l: Life, last: Entry, id: nat)
    requires Sane(l) && l.Life? && !last.Delivered?
    ensures var r := Lived(l, last, id);
            && r.Life? && (r.linked <==> l.linked || last == Linked(id))
            && (r.client.running <==> l.client.running && last != Left(id))
            && r.client.worker.trace.puts == l.client.worker.trace.puts
  {
    match last
    case HungUp(k) => HungUpPuts(l, k, id);
    case Left(k) => LeftPuts(l, k, id);
    case Worked(k, step) => WorkedPuts(l, k, step, id);
    case _ =>
  }

  lemma WorkedPuts(l: Life, k: nat, step: W.Event, id: nat)
    requires Sane(l) && l.Life?
    ensures var r := Lived(l, Worked(k, step), id);
            && r.Life? && r.linked == l.linked && r.client.running == l.client.running
            && r.client.worker.trace.puts == l.client.worker.trace.puts
  {
    var r := Lived(l, Worked(k, step), id);
    if k == id && OwnStep(step) {
      assert r == l.(client := l.client.(worker := W.Step(l.client.worker, step)));
      W.PutsAfterStep(l.client.worker, step);
    } else {
      assert r == l;
    }
  }

  lemma FedPuts(l: Life, block: W.Block, id: nat)
    requires Sane(l) && l.Life?
    ensures var r := Lived(l, Delivered(block), id);
            && r.Life? && r.linked == l.linked && r.client.running == l.client.running
            && r.client.worker.trace.puts
               == l.client.worker.trace.puts + if l.linked && l.client.running then [block] else []
  {
    var puts := l.client.worker.trace.puts;
    assert puts + [] == puts;
    W.PutsAfterStep(l.client.worker, W.Put(block));
  }

  lemma HungUpPuts(l: Life, k: nat, id: nat)
    requires Sane(l) && l.Life?
    ensures var r := Lived(l, HungUp(k), id);
            && r.Life? && r.linked == l.linked && r.client.running == l.client.running
            && r.client.worker.trace.puts == l.client.worker.trace.puts
  {
    if k == id {
      MutedOk(l.client);
    }
  }

  lemma LeftPuts(l: Life, k: nat, id: nat)
    requires Sane(l) && l.Life?
    ensures var r := Lived(l, Left(k), id);
            && r.Life? && r.linked == l.linked && (r.client.running <==> l.client.running && k != id)
            && r.client.worker.trace.puts == l.client.worker.trace.puts
  {
    if k == id && l.client.running {
      StoppedOk(l.client);
    }
  }

  // ---- What its full queue overwrote ----

  /**
   The numbers of the blocks a client received and lost again: with every delivery that finds all
   blocks of its queue in use, the one it received just before.
   */
  ghost function Overwritten(story: seq<Entry>, id: nat): seq<int> {
    if story == [] then []
    else
      var before, last := story[..|story| - 1], story[|story| - 1];
      Overwritten(before, id)
      + if last.Delivered? && Linked(id) in before && Left(id) !in before && QueueFull(LifeOf(before, id))
        then [|Received(before, id)| - 1] else []
  }

  /** Every block of the client's queue is pending or held. */
  ghost predicate QueueFull(l: Life) {
    l.Life? && QueueSpec.Full(l.client.worker.core.queue)
  }

  lemma OverwrittenOn(story: seq<Entry>, last: Entry, id: nat)
    ensures Overwritten(story + [last], id)
            == Overwritten(story, id)
               + if last.Delivered? && Linked(id) in story && Left(id) !in story && QueueFull(LifeOf(story, id))
                 then [|Received(story, id)| - 1] else []
  {
    hide LifeOf, QueueFull, Received, ClientOk;
    assert (story + [last])[..|story|] == story;
  }

  ghost predicate LossTold(story: seq<Entry>, id: nat) {
    var l := LifeOf(story, id);
    && (l.Unborn? ==> Overwritten(story, id) == [])
    && (l.Life? ==> l.client.worker.trace.lost == Overwritten(story, id))
  }

  lemma LostOn(l: Life, last: Entry, id: nat)
    requires Sane(l) && l.Life?
    ensures var r := Lived(l, last, id);
            && r.Life?
            && r.client.worker.trace.lost
               == l.client.worker.trace.lost
                  + if last.Delivered? && l.linked && l.client.running && QueueFull(l)
                    then [|l.client.worker.trace.puts| - 1] else []
  {
    hide W.Step, W.Disconnected, W.Initial, W.Invariant;
    var w := l.client.worker;
    assert w.trace.lost + [] == w.trace.lost;
    if last == Left(id) && l.client.running {
      StoppedOk(l.client);
    } else if last == HungUp(id) {
      W.LostAfterStep(w, W.Close);
    } else if last.Worked? && last.id == id && OwnStep(last.step) {
      W.LostAfterStep(w, last.step);
    } else if last.Delivered? && l.linked && l.client.running {
      W.LostAfterStep(w, W.Put(last.block));
    }
  }

  lemma BornWithout(last: Entry, id: nat)
    ensures var r := Lived(Unborn, last, id);
            r.Life? ==> r.client.worker.trace.lost == []
  {
  }

  /** What a client's queue has overwritten can be read off the story. */
  lemma {:induction false} LossesTold(story: seq<Entry>, id: nat)
    requires WellTold(story)
    ensures LossTold(story, id)
  {
    if story == [] {
    } else {
      var before, last := story[..|story| - 1], story[|story| - 1];
      assert story == before + [last];
      LossesTold(before, id);
      LifeTold(before, id);
      LossOn(before, last, id);
    }
  }

  lemma LossOn(story: seq<Entry>, last: Entry, id: nat)
    requires LossTold(story, id) && Tells(story, id)
    ensures LossTold(story + [last], id)
  {
    hide Lived, LifeOf, ClientOk, QueueFull, Received, Overwritten;
    LifeGoesOn(story, last, id);
    OverwrittenOn(story, last, id);
    var l := LifeOf(story, id);
    if l.Life? {
      LostOn(l, last, id);
    } else {
      BornWithout(last, id);
    }
  }

  ghost function StartOf(l: Life, id: nat): Entry
    requires l.Life?
  {
    Started(id, l.request, l.client.worker.setup)
  }

  /** A client's request and setup are those it was started with. */
  ghost predicate StartKnown(story: seq<Entry>, id: nat) {
    LifeOf(story, id).Life? ==> StartOf(LifeOf(story, id), id) in story
  }

  lemma {:induction false} StartTold(story: seq<Entry>, id: nat)
    ensures StartKnown(story, id)
  {
    if story == [] {
    } else {
      var before, last := story[..|story| - 1], story[|story| - 1];
      assert story == before + [last];
      StartTold(before, id);
      StartOn(before, last, id);
    }
  }

  lemma StartOn(story: seq<Entry>, last: Entry, id: nat)
    requires StartKnown(story, id)
    ensures StartKnown(story + [last], id)
  {
    var l := LifeOf(story, id);
    LifeGoesOn(story, last, id);
    if l.Life? {
      SetupKept(l, last, id);
      InAppended(story, last, StartOf(l, id));
    } else if Lived(l, last, id).Life? {
      BirthSetup(last, id);
      InAppended(story, last, last);
    }
  }

  lemma BirthSetup(last: Entry, id: nat)
    requires Lived(Unborn, last, id).Life?
    ensures last == StartOf(Lived(Unborn, last, id), id)
  {
  }

  lemma SetupKept(l: Life, last: Entry, id: nat)
    requires Sane(l) && l.Life?
    ensures var r := Lived(l, last, id);
            r.Life? && StartOf(r, id) == StartOf(l, id)
  {
    if last == Left(id) && l.client.running {
      StoppedOk(l.client);
    } else if last == HungUp(id) {
      MutedOk(l.client);
    }
  }
}
