/**
 Where a scheduling pass sends what it sends out: which worker, which device, and with which
 adapter.
 */
module Placement {
  // A group goes to a worker that offers the model, the revision and the key device of the
  // group's key. Neither the device a member asked for nor its adapter is looked at again,
  // so both are met only as far as the registered workers see to it.

  import opened Types
  import opened Lifecycle
  import opened Fabric
  import G = Grouping
  import GP = GroupingProofs
  import K = KeyText
  import PS = PumpSchedule

  /** The keys agree in what placement compares. */
  predicate Twins(a: CompatibilityKey, b: CompatibilityKey) {
    a.model == b.model && a.revision == b.revision && a.device == b.device
  }

  predicate Offers(w: Worker, k: CompatibilityKey) {
    exists i | 0 <= i < |w.models| :: Twins(w.models[i], k)
  }

  /** Workers that offer the same model, revision and key device are on the same device. */
  ghost predicate OneDevice(f: FabricState) {
    forall u, v, i | u in f.workers && v in f.workers && 0 <= i < |f.workers[u].models|
      && Offers(f.workers[v], f.workers[u].models[i]) :: f.workers[v].device.id == f.workers[u].device.id
  }

  predicate OffersAdapter(w: Worker, k: CompatibilityKey) {
    exists i | 0 <= i < |w.models| :: Twins(w.models[i], k) && w.models[i].adapter == k.adapter
  }

  /** Workers that offer the same model, revision and key device offer the same adapters with it. */
  ghost predicate SameAdapters(f: FabricState) {
    forall u, v, i | u in f.workers && v in f.workers && 0 <= i < |f.workers[u].models|
      && Offers(f.workers[v], f.workers[u].models[i]) :: OffersAdapter(f.workers[v], f.workers[u].models[i])
  }

  // ---------------------------------------------------------------------------
  // Where a candidate's key comes from

  /** Worker `u` has this key at `i` and serves the request. */
  predicate From(f: FabricState, req: DecodeRequest, k: CompatibilityKey, u: nat, i: nat) {
    && u in f.workers && i < |f.workers[u].models| && f.workers[u].models[i] == k && Serves(f.workers[u], req, k)
  }

  lemma {:induction false} KeyAmongFrom(w: Worker, req: DecodeRequest, ks: seq<CompatibilityKey>) returns (i: nat)
    requires KeyAmong(w, req, ks).Some?
    ensures i < |ks| && KeyAmong(w, req, ks) == Some(ks[i]) && Serves(w, req, ks[i])
  {
    if Serves(w, req, ks[0]) {
      i := 0;
    } else {
      var j := KeyAmongFrom(w, req, ks[1..]);
      i := j + 1;
    }
  }

  lemma {:induction false} KeyForFrom(f: FabricState, workerOrder: seq<nat>, req: DecodeRequest)
    returns (u: nat, i: nat)
    requires KeyFor(f, workerOrder, req).Some?
    ensures From(f, req, KeyFor(f, workerOrder, req).value, u, i)
  {
    var w := workerOrder[0];
    if w in f.workers && KeyAmong(f.workers[w], req, f.workers[w].models).Some? {
      u := w;
      i := KeyAmongFrom(f.workers[w], req, f.workers[w].models);
    } else {
      u, i := KeyForFrom(f, workerOrder[1..], req);
    }
  }

  ghost predicate Sourced(f: FabricState, c: G.Candidate) {
    c.sequence in f.seqs && exists u, i :: From(f, f.seqs[c.sequence].req, c.key, u, i)
  }

  /** The pass has changed neither a worker nor a request. */
  ghost predicate Undisturbed(f: FabricState, f': FabricState) {
    f'.workers == f.workers && PS.Carried(f, f')
  }

  lemma CloseUndisturbed(f: FabricState, id: nat, to: SequenceState)
    requires id in f.seqs
    ensures Undisturbed(f, Close(f, id, to))
  {
    PS.CloseCarries(f, id, to);
  }

  lemma {:induction false} AdvanceUndisturbed(f: FabricState, now: int, order: seq<nat>)
    ensures Undisturbed(f, Advance(f, now, order))
  {
    PS.AdvanceCarries(f, now, order);
    if order != [] {
      var f1, id := Advance(f, now, order[..|order| - 1]), order[|order| - 1];
      AdvanceUndisturbed(f, now, order[..|order| - 1]);
      if id in f1.seqs {
        CloseUndisturbed(f1, id, DeadlineExpired);
        CloseUndisturbed(f1, id, Cancelled);
      }
    }
  }

  lemma SourcedStays(f: FabricState, f': FabricState, c: G.Candidate)
    requires Undisturbed(f, f') && Sourced(f, c)
    ensures Sourced(f', c)
  {
    assert PS.SameWork(f.seqs[c.sequence], f'.seqs[c.sequence]);
    var u, i :| From(f, f.seqs[c.sequence].req, c.key, u, i);
    assert From(f', f'.seqs[c.sequence].req, c.key, u, i);
  }

  lemma CollectOneSourced(f: FabricState, id: nat, workerOrder: seq<nat>, score: map<nat, real>)
    ensures var (f', more) := CollectOne(f, id, workerOrder, score);
      Undisturbed(f, f') && forall c | c in more :: Sourced(f', c)
  {
    var (f', more) := CollectOne(f, id, workerOrder, score);
    if more == [] {
      CollectNone(f, id, workerOrder, score);
    } else {
      assert f' == f;
      var c := more[0];
      assert c.sequence == id && KeyFor(f, workerOrder, f.seqs[id].req) == Some(c.key);
      var u, i := KeyForFrom(f, workerOrder, f.seqs[id].req);
      assert more == [c];
    }
  }

  lemma CollectNone(f: FabricState, id: nat, workerOrder: seq<nat>, score: map<nat, real>)
    requires CollectOne(f, id, workerOrder, score).1 == []
    ensures Undisturbed(f, CollectOne(f, id, workerOrder, score).0)
  {
    if id in f.seqs {
      CloseUndisturbed(f, id, Completed);
    }
  }

  lemma {:induction false} CollectSourced(f: FabricState, order: seq<nat>, workerOrder: seq<nat>,
                                          score: map<nat, real>)
    ensures var (f', cs) := Collect(f, order, workerOrder, score);
      Undisturbed(f, f') && forall c | c in cs :: Sourced(f', c)
  {
    if order != [] {
      var front, id := order[..|order| - 1], order[|order| - 1];
      CollectSourced(f, front, workerOrder, score);
      var (f1, cs) := Collect(f, front, workerOrder, score);
      CollectOneSourced(f1, id, workerOrder, score);
      var (f2, more) := CollectOne(f1, id, workerOrder, score);
      PS.CarriedTrans(f, f1, f2);
      forall c | c in cs ensures Sourced(f2, c) {
        SourcedStays(f1, f2, c);
      }
    }
  }

  lemma {:induction false} MoveWorkers(f: FabricState, cs: seq<G.Candidate>, to: SequenceState)
    ensures MoveAll(f, cs, to).workers == f.workers
  {
    if cs != [] {
      MoveWorkers(f, cs[..|cs| - 1], to);
    }
  }

  lemma {:induction false} GroupedUndisturbed(f: FabricState, groups: seq<G.Group>, to: SequenceState)
    ensures Undisturbed(f, MoveGroups(f, groups, to))
  {
    PS.GroupsCarry(f, groups, to);
    if groups != [] {
      GroupedUndisturbed(f, groups[..|groups| - 1], to);
      MoveWorkers(MoveGroups(f, groups[..|groups| - 1], to), groups[|groups| - 1].members, to);
    }
  }

  // ---------------------------------------------------------------------------
  // Where a group goes

  /** The same worker but for its load. */
  predicate Alike(u: Worker, w: Worker) {
    u.(active := w.active) == w
  }

  /** Every worker was there before, with another load perhaps. */
  ghost predicate SameCrew(f: FabricState, f': FabricState) {
    forall k | k in f'.workers :: exists j | j in f.workers :: Alike(f.workers[j], f'.workers[k])
  }

  lemma SameCrewTrans(f: FabricState, f1: FabricState, f2: FabricState)
    requires SameCrew(f, f1) && SameCrew(f1, f2)
    ensures SameCrew(f, f2)
  {
    forall k | k in f2.workers ensures exists j | j in f.workers :: Alike(f.workers[j], f2.workers[k]) {
      var i :| i in f1.workers && Alike(f1.workers[i], f2.workers[k]);
      var j :| j in f.workers && Alike(f.workers[j], f1.workers[i]);
      assert Alike(f.workers[j], f2.workers[k]);
    }
  }

  lemma {:induction false} PlacedFits(f: FabricState, workerOrder: seq<nat>, k: CompatibilityKey)
    requires Place(f, workerOrder, k).Some?
    ensures Place(f, workerOrder, k).value in f.workers && Fits(f.workers[Place(f, workerOrder, k).value], k)
  {
    var front := workerOrder[..|workerOrder| - 1];
    if Place(f, front, k).Some? {
      PlacedFits(f, front, k);
    }
  }

  predicate Belongs(members: seq<G.Candidate>, id: nat) {
    exists c | c in members :: c.sequence == id
  }

  /** The request carries members of `g` to worker `k`, which offers the group's key. */
  predicate Carries(f: FabricState, req: ExecutionRequest, g: G.Group, k: nat) {
    && k in f.workers && req.worker == f.workers[k].id && req.device == f.workers[k].device
    && Offers(f.workers[k], g.key) && forall i | 0 <= i < |req.members| :: Belongs(g.members, req.members[i].sequence)
  }

  ghost predicate CarriesSome(f: FabricState, req: ExecutionRequest, groups: seq<G.Group>) {
    exists g, k | g in groups :: Carries(f, req, g, k)
  }

  lemma {:induction false} SpecsBelong(f: FabricState, members: seq<G.Candidate>)
    ensures forall i | 0 <= i < |Specs(f, members)| :: Belongs(members, Specs(f, members)[i].sequence)
  {
    if members != [] {
      var front, c := members[..|members| - 1], members[|members| - 1];
      SpecsBelong(f, front);
      forall i | 0 <= i < |Specs(f, members)| ensures Belongs(members, Specs(f, members)[i].sequence) {
        if i < |Specs(f, front)| {
          assert Belongs(front, Specs(f, front)[i].sequence);
          var d :| d in front && d.sequence == Specs(f, front)[i].sequence;
          assert d in members;
        } else {
          assert c in members;
        }
      }
    }
  }

  lemma SendCrew(f: FabricState, k: nat, g: G.Group)
    requires k in f.workers
    ensures SameCrew(f, SendTo(f, f.workers[k], g))
  {
    var w := f.workers[k];
    var f0 := Booked(f, w, g);
    PS.BindCarries(f0, g.members, f.next.dispatch, w.id, f.memory.nextReservation);
    var f' := SendTo(f, w, g);
    assert f'.workers == f.workers[w.id := w.(active := w.active + 1)];
    forall j | j in f'.workers ensures exists i | i in f.workers :: Alike(f.workers[i], f'.workers[j]) {
      if j == w.id {
        assert Alike(f.workers[k], f'.workers[j]);
      } else {
        assert Alike(f.workers[j], f'.workers[j]);
      }
    }
  }

  lemma GroupCarried(cfg: Config, f: FabricState, workerOrder: seq<nat>, g: G.Group)
    ensures var (f', out) := DispatchGroup(cfg, f, workerOrder, g);
      SameCrew(f, f') && forall r | 0 <= r < |out| :: CarriesSome(f, out[r], [g])
  {
    var (f', out) := DispatchGroup(cfg, f, workerOrder, g);
    if out == [] {
      MoveWorkers(f, g.members, Ready);
      forall k | k in f'.workers ensures exists j | j in f.workers :: Alike(f.workers[j], f'.workers[k]) {
        assert Alike(f.workers[k], f'.workers[k]);
      }
    } else {
      PlacedFits(f, workerOrder, g.key);
      var k := Place(f, workerOrder, g.key).value;
      SendCrew(f, k, g);
      SpecsBelong(f, g.members);
      FittingOffers(f.workers[k], g.key);
      assert Carries(f, out[0], g, k) && g in [g];
    }
  }

  lemma FittingOffers(w: Worker, k: CompatibilityKey)
    requires Fits(w, k)
    ensures Offers(w, k)
  {
    var i :| 0 <= i < |w.models| && w.models[i].model == k.model && w.models[i].revision == k.revision
      && w.models[i].device == k.device;
    assert Twins(w.models[i], k);
  }

  lemma CarriesBefore(f: FabricState, f1: FabricState, req: ExecutionRequest, groups: seq<G.Group>,
                      more: seq<G.Group>)
    requires SameCrew(f, f1) && CarriesSome(f1, req, groups) && forall g | g in groups :: g in more
    ensures CarriesSome(f, req, more)
  {
    var g, k :| g in groups && Carries(f1, req, g, k);
    var j :| j in f.workers && Alike(f.workers[j], f1.workers[k]);
    assert f.workers[j].models == f1.workers[k].models;
    assert Carries(f, req, g, j) && g in more;
  }

  lemma {:induction false} AllCarried(cfg: Config, f: FabricState, workerOrder: seq<nat>, groups: seq<G.Group>)
    ensures var (f', out) := DispatchAll(cfg, f, workerOrder, groups);
      SameCrew(f, f') && forall r | 0 <= r < |out| :: CarriesSome(f, out[r], groups)
  {
    if groups == [] {
      forall k | k in f.workers ensures exists j | j in f.workers :: Alike(f.workers[j], f.workers[k]) {
        assert Alike(f.workers[k], f.workers[k]);
      }
    } else {
      var front, g := groups[..|groups| - 1], groups[|groups| - 1];
      AllCarried(cfg, f, workerOrder, front);
      var (f1, out) := DispatchAll(cfg, f, workerOrder, front);
      GroupCarried(cfg, f1, workerOrder, g);
      var (f2, more) := DispatchGroup(cfg, f1, workerOrder, g);
      SameCrewTrans(f, f1, f2);
      forall r | 0 <= r < |out + more| ensures CarriesSome(f, (out + more)[r], groups) {
        if r < |out| {
          CarriesWider(f, out[r], front, groups);
        } else {
          CarriesBefore(f, f1, more[r - |out|], [g], groups);
        }
      }
    }
  }

  lemma CarriesWider(f: FabricState, req: ExecutionRequest, groups: seq<G.Group>, more: seq<G.Group>)
    requires CarriesSome(f, req, groups) && forall g | g in groups :: g in more
    ensures CarriesSome(f, req, more)
  {
    var g, k :| g in groups && Carries(f, req, g, k);
    assert g in more;
  }

  // ---------------------------------------------------------------------------
  // What a pass sends out

  /**
   Where member `id` of `req` was sent: to worker `v`, by a key that worker `u` has at `i`
   and that serves what the sequence asked for.
   */
  predicate Sent(f: FabricState, req: ExecutionRequest, id: nat, u: nat, i: nat, v: nat) {
    && id in f.seqs && u in f.workers && i < |f.workers[u].models| && v in f.workers
    && Serves(f.workers[u], f.seqs[id].req, f.workers[u].models[i])
    && req.worker == f.workers[v].id && req.device == f.workers[v].device
    && Offers(f.workers[v], f.workers[u].models[i])
  }

  lemma TwinsOffer(w: Worker, k: CompatibilityKey, l: CompatibilityKey)
    requires Offers(w, k) && Twins(k, l)
    ensures Offers(w, l)
  {
    var i :| 0 <= i < |w.models| && Twins(w.models[i], k);
    assert Twins(w.models[i], l);
  }

  lemma MemberSent(cfg: Config, f: FabricState, g: G.Group, req: ExecutionRequest, k: nat, i: nat)
    returns (u: nat, j: nat)
    requires (forall x :: cfg.keyText(x) == K.KeyText(x)) && i < |req.members| && Carries(f, req, g, k)
    requires GP.GroupOk(cfg.limits, cfg.keyText, g) && forall c | c in g.members :: Sourced(f, c)
    ensures Sent(f, req, req.members[i].sequence, u, j, k)
  {
    assert Belongs(g.members, req.members[i].sequence);
    var c :| c in g.members && c.sequence == req.members[i].sequence;
    u, j :| From(f, f.seqs[c.sequence].req, c.key, u, j);
    assert cfg.keyText(c.key) == cfg.keyText(g.key);
    K.TextsMeet(c.key, g.key);
    TwinsOffer(f.workers[k], g.key, c.key);
  }

  lemma SentEarlier(f: FabricState, f': FabricState, req: ExecutionRequest, id: nat, u: nat, i: nat, v: nat)
    requires Undisturbed(f, f') && Sent(f', req, id, u, i, v)
    ensures Sent(f, req, id, u, i, v)
  {
    assert PS.SameWork(f.seqs[id], f'.seqs[id]);
  }

  lemma UndisturbedTrans(f: FabricState, f1: FabricState, f2: FabricState)
    requires Undisturbed(f, f1) && Undisturbed(f1, f2)
    ensures Undisturbed(f, f2)
  {
    PS.CarriedTrans(f, f1, f2);
  }

  lemma GroupsSourced(cfg: Config, f: FabricState, cs: seq<G.Candidate>, groups: seq<G.Group>) returns (f': FabricState)
    requires GP.Distinct(cs) && (forall c | c in cs :: Sourced(f, c))
      && groups == G.FormGroups(cfg.limits, cfg.keyText, cs)
    ensures f' == MoveGroups(f, groups, Grouped) && Undisturbed(f, f')
    ensures forall g | g in groups ::
      GP.GroupOk(cfg.limits, cfg.keyText, g) && forall c | c in g.members :: Sourced(f', c)
  {
    f' := MoveGroups(f, groups, Grouped);
    GP.GroupFormation(cfg.limits, cfg.keyText, cs);
    GP.MembersAreCandidates(cfg.limits, cfg.keyText, cs);
    GroupedUndisturbed(f, groups, Grouped);
    forall g, c | g in groups && c in g.members ensures Sourced(f', c) {
      SourcedStays(f, f', c);
    }
  }

  lemma Formed(cfg: Config, f: FabricState, now: int, order: seq<nat>, workerOrder: seq<nat>, score: map<nat, real>)
    returns (f3: FabricState, groups: seq<G.Group>)
    requires PS.NoRepeats(order)
    ensures Schedule(cfg, f, now, order, workerOrder, score) == DispatchAll(cfg, f3, workerOrder, groups)
    ensures Undisturbed(f, f3)
    ensures forall g | g in groups ::
      GP.GroupOk(cfg.limits, cfg.keyText, g) && forall c | c in g.members :: Sourced(f3, c)
  {
    var f1 := Advance(f, now, order);
    AdvanceUndisturbed(f, now, order);
    var (f2, cs) := Collect(f1, order, workerOrder, score);
    CollectSourced(f1, order, workerOrder, score);
    UndisturbedTrans(f, f1, f2);
    PS.CollectOffers(f1, order, workerOrder, score);
    groups := G.FormGroups(cfg.limits, cfg.keyText, cs);
    f3 := GroupsSourced(cfg, f2, cs, groups);
    UndisturbedTrans(f, f2, f3);
  }

  /**
   Every member a pass sends out was collected with some worker's key, and its group went where
   that key is offered.
   */
  lemma EachSent(cfg: Config, f: FabricState, now: int, order: seq<nat>, workerOrder: seq<nat>, score: map<nat, real>,
                 r: nat, i: nat)
    returns (u: nat, j: nat, v: nat)
    requires (forall x :: cfg.keyText(x) == K.KeyText(x)) && PS.NoRepeats(order)
    requires var out := Schedule(cfg, f, now, order, workerOrder, score).1; r < |out| && i < |out[r].members|
    ensures var out := Schedule(cfg, f, now, order, workerOrder, score).1;
      Sent(f, out[r], out[r].members[i].sequence, u, j, v)
  {
    var f3, groups := Formed(cfg, f, now, order, workerOrder, score);
    AllCarried(cfg, f3, workerOrder, groups);
    var out := DispatchAll(cfg, f3, workerOrder, groups).1;
    assert CarriesSome(f3, out[r], groups);
    var g, k :| g in groups && Carries(f3, out[r], g, k);
    v := k;
    u, j := MemberSent(cfg, f3, g, out[r], k, i);
    SentEarlier(f, f3, out[r], out[r].members[i].sequence, u, j, v);
  }

  /** The member is sent to the device it asked for, if it asked for one. */
  predicate AsAsked(f: FabricState, req: ExecutionRequest, id: nat) {
    id in f.seqs && (f.seqs[id].req.deviceConstraint != NULL ==> req.device.id == f.seqs[id].req.deviceConstraint)
  }

  /** Device constraints are met for everything a pass sends out, when no key device stands for two devices. */
  lemma DevicesMet(cfg: Config, f: FabricState, now: int, order: seq<nat>, workerOrder: seq<nat>,
                   score: map<nat, real>)
    requires (forall x :: cfg.keyText(x) == K.KeyText(x)) && PS.NoRepeats(order) && OneDevice(f)
    ensures var out := Schedule(cfg, f, now, order, workerOrder, score).1;
      forall r, i | 0 <= r < |out| && 0 <= i < |out[r].members| :: AsAsked(f, out[r], out[r].members[i].sequence)
  {
    var out := Schedule(cfg, f, now, order, workerOrder, score).1;
    forall r, i | 0 <= r < |out| && 0 <= i < |out[r].members|
      ensures AsAsked(f, out[r], out[r].members[i].sequence)
    {
      var u, j, v := EachSent(cfg, f, now, order, workerOrder, score, r, i);
    }
  }

  /** The worker has the model, revision and adapter asked for. */
  predicate Equipped(w: Worker, req: DecodeRequest) {
    exists i | 0 <= i < |w.models| ::
      w.models[i].model == req.model && w.models[i].revision == req.revision && w.models[i].adapter == req.adapter
  }

  predicate ReachesEquipped(f: FabricState, req: ExecutionRequest, id: nat) {
    id in f.seqs && exists v | v in f.workers :: f.workers[v].id == req.worker && Equipped(f.workers[v], f.seqs[id].req)
  }

  lemma AdapterOffered(f: FabricState, req: ExecutionRequest, id: nat, u: nat, j: nat, v: nat)
    requires SameAdapters(f) && Sent(f, req, id, u, j, v)
    ensures ReachesEquipped(f, req, id)
  {
    var w, k := f.workers[v], f.workers[u].models[j];
    assert OffersAdapter(w, k);
    var i :| 0 <= i < |w.models| && Twins(w.models[i], k) && w.models[i].adapter == k.adapter;
    assert w.models[i].adapter == f.seqs[id].req.adapter;
    assert Equipped(w, f.seqs[id].req);
  }

  /** Adapters are offered where a pass sends its members, when workers that share a key device share its adapters. */
  lemma AdaptersMet(cfg: Config, f: FabricState, now: int, order: seq<nat>, workerOrder: seq<nat>,
                    score: map<nat, real>)
    requires (forall x :: cfg.keyText(x) == K.KeyText(x)) && PS.NoRepeats(order) && SameAdapters(f)
    ensures var out := Schedule(cfg, f, now, order, workerOrder, score).1;
      forall r, i | 0 <= r < |out| && 0 <= i < |out[r].members| ::
        ReachesEquipped(f, out[r], out[r].members[i].sequence)
  {
    var out := Schedule(cfg, f, now, order, workerOrder, score).1;
    forall r, i | 0 <= r < |out| && 0 <= i < |out[r].members|
      ensures ReachesEquipped(f, out[r], out[r].members[i].sequence)
    {
      var u, j, v := EachSent(cfg, f, now, order, workerOrder, score, r, i);
      AdapterOffered(f, out[r], out[r].members[i].sequence, u, j, v);
    }
  }
}
