/** Agreement on a new epoch's configuration by echo and ready messages. */
module NewEpochBroadcast {
  import opened Types
  import opened Quorums

  datatype TargetState =
    | Prepending | Pending | Verifying | Fetching | Echoing | Readying | Resuming | Ready | InProgress | Done

  function Rank(s: TargetState): nat {
    match s
    case Prepending => 0
    case Pending => 1
    case Verifying => 2
    case Fetching => 3
    case Echoing => 4
    case Readying => 5
    case Resuming => 6
    case Ready => 7
    case InProgress => 8
    case Done => 9
  }

  type Tally = map<NewEpochConfig, set<NodeId>>

  function Votes(tally: Tally, k: NewEpochConfig): set<NodeId> {
    if k in tally then tally[k] else {}
  }

  function Record(tally: Tally, k: NewEpochConfig, source: NodeId): Tally {
    tally[k := Votes(tally, k) + {source}]
  }

  /** The part of an epoch target that the broadcast reads and writes. */
  datatype Target = Target(
    state: TargetState,
    leader: Option<NewEpochConfig>,    // as last received from the epoch's leader
    verified: Option<NewEpochConfig>,  // the configuration that passed verification
    logged: Option<NewEpochConfig>,    // the configuration whose digests were logged when echoing
    echos: Tally,
    readies: Tally,
    network: Option<NewEpochConfig>)   // as delivered by the broadcast

  function Fresh(): Target {
    Target(Prepending, None, None, None, map[], map[], None)
  }

  /** What other components answer while the target advances. */
  datatype Env = Env(changesQuorum: bool, verified: bool, fetched: bool, resumable: bool)

  /** The N and Q entries of a configuration, its P entries, the two messages, and the walk over the log
      that commits what was logged for `own`. */
  datatype Action =
    | PersistCarried(config: NewEpochConfig)
    | SendEcho(config: NewEpochConfig)
    | PersistPrepared(config: NewEpochConfig)
    | SendReady(config: NewEpochConfig)
    | CommitLogged(own: Option<NewEpochConfig>)

  predicate HasQuorum(c: NetworkConfig, tally: Tally, k: NewEpochConfig) {
    |Votes(tally, k)| >= IntersectionQuorum(c)
  }

  /** One pass through the state switch that changes the state. */
  ghost predicate Micro(c: NetworkConfig, env: Env, t: Target, t': Target, out: seq<Action>) {
    match t.state
    case Prepending => env.changesQuorum && t' == t.(state := Pending) && out == []
    case Pending => t.leader.Some? && t' == t.(state := Verifying) && out == []
    case Verifying =>
      t.leader.Some? && env.verified && t' == t.(state := Fetching, verified := t.leader) && out == []
    case Fetching =>
      && t.leader.Some? && env.fetched
      && t' == t.(state := Echoing, logged := t.leader)
      && out == [PersistCarried(t.leader.value), SendEcho(t.leader.value)]
    case Echoing =>
      exists k :: k in t.echos && HasQuorum(c, t.echos, k)
                  && t' == t.(state := Readying) && out == [PersistPrepared(k), SendReady(k)]
    case Readying =>
      exists k :: k in t.readies && HasQuorum(c, t.readies, k)
                  && t' == t.(state := Resuming, network := Some(k)) && out == [CommitLogged(t.logged)]
    case Resuming => env.resumable && t' == t.(state := Ready) && out == []
    case Ready => t' == t.(state := InProgress) && out == []
    case InProgress => false
    case Done => false
  }

  ghost predicate Enabled(c: NetworkConfig, env: Env, t: Target) {
    exists t', out :: Micro(c, env, t, t', out)
  }

  lemma MicroAdvances(c: NetworkConfig, env: Env, t: Target, t': Target, out: seq<Action>)
    requires Micro(c, env, t, t', out)
    ensures Rank(t'.state) == Rank(t.state) + 1
  {
  }

  /** `t'` is reached from `t` by passes that emit `out`. */
  ghost predicate Reaches(c: NetworkConfig, env: Env, t: Target, t': Target, out: seq<Action>)
    decreases Rank(t'.state)
  {
    || (t' == t && out == [])
    || exists t1: Target, o1: seq<Action>, o2: seq<Action> ::
         Rank(t1.state) < Rank(t'.state) && Reaches(c, env, t, t1, o1) && Micro(c, env, t1, t', o2)
                            && out == o1 + o2
  }

  /** The result of advancing: a state in which nothing more can change. */
  ghost predicate Saturates(c: NetworkConfig, env: Env, t: Target, t': Target, out: seq<Action>) {
    Reaches(c, env, t, t', out) && !Enabled(c, env, t')
  }

  /** What the target waits for where it stops. */
  ghost predicate Waits(c: NetworkConfig, env: Env, t: Target) {
    match t.state
    case Prepending => !env.changesQuorum
    case Pending => t.leader.None?
    case Verifying => t.leader.None? || !env.verified
    case Fetching => t.leader.None? || !env.fetched
    case Echoing => forall k :: k in t.echos ==> |t.echos[k]| < IntersectionQuorum(c)
    case Readying => forall k :: k in t.readies ==> |t.readies[k]| < IntersectionQuorum(c)
    case Resuming => !env.resumable
    case Ready => false
    case InProgress => true
    case Done => true
  }

  lemma SaturatedWaits(c: NetworkConfig, env: Env, t: Target)
    requires !Enabled(c, env, t)
    ensures Waits(c, env, t)
  {
    match t.state {
      case Prepending => assert !Micro(c, env, t, t.(state := Pending), []);
      case Pending => assert !Micro(c, env, t, t.(state := Verifying), []);
      case Verifying => assert !Micro(c, env, t, t.(state := Fetching, verified := t.leader), []);
      case Fetching =>
        if t.leader.Some? {
          var k := t.leader.value;
          assert !Micro(c, env, t, t.(state := Echoing, logged := t.leader), [PersistCarried(k), SendEcho(k)]);
        }
      case Echoing =>
        forall k | k in t.echos ensures |t.echos[k]| < IntersectionQuorum(c) {
          assert !Micro(c, env, t, t.(state := Readying), [PersistPrepared(k), SendReady(k)]);
        }
      case Readying =>
        forall k | k in t.readies ensures |t.readies[k]| < IntersectionQuorum(c) {
          assert !Micro(c, env, t, t.(state := Resuming, network := Some(k)), [CommitLogged(t.logged)]);
        }
      case Resuming => assert !Micro(c, env, t, t.(state := Ready), []);
      case Ready => assert !Micro(c, env, t, t.(state := InProgress), []);
      case _ =>
    }
  }

  ghost predicate OnEcho(c: NetworkConfig, env: Env, t: Target, t': Target, out: seq<Action>, source: NodeId,
                         k: NewEpochConfig)
  {
    Saturates(c, env, t.(echos := Record(t.echos, k, source)), t', out)
  }

  ghost predicate OnReady(c: NetworkConfig, env: Env, t: Target, t': Target, out: seq<Action>, source: NodeId,
                          k: NewEpochConfig)
  {
    if Rank(t.state) > Rank(Readying) then t' == t && out == []
    else
      var t1 := t.(readies := Record(t.readies, k, source));
      if |Votes(t1.readies, k)| < SomeCorrectQuorum(c) then t' == t1 && out == []
      else if t.state == Echoing then t' == t1.(state := Readying) && out == [SendReady(k)]
      else Saturates(c, env, t1, t', out)
  }

  ghost predicate OnNewEpoch(c: NetworkConfig, env: Env, t: Target, t': Target, out: seq<Action>, k: NewEpochConfig) {
    Saturates(c, env, t.(leader := Some(k)), t', out)
  }

  // ---------------------------------------------------------------- the target object

  class EpochTarget {
    const c: NetworkConfig
    var state: TargetState
    var leader: Option<NewEpochConfig>
    ghost var verified: Option<NewEpochConfig>   // as of the last successful verification
    var logged: Option<NewEpochConfig>
    var echos: Tally
    var readies: Tally
    var network: Option<NewEpochConfig>

    ghost function View(): Target
      reads this
    {
      Target(state, leader, verified, logged, echos, readies, network)
    }

    constructor (c: NetworkConfig)
      ensures View() == Fresh() && this.c == c
    {
      this.c := c;
      state, leader, logged, echos, readies, network := Prepending, None, None, map[], map[], None;
      verified := None;
    }

    method FindQuorum(tally: Tally) returns (r: Option<NewEpochConfig>)
      ensures r.Some? ==> r.value in tally && HasQuorum(c, tally, r.value)
      ensures r.None? ==> forall k :: k in tally ==> !HasQuorum(c, tally, k)
    {
      var rest := tally.Keys;
      while rest != {}
        invariant rest <= tally.Keys
        invariant forall k :: k in tally && k !in rest ==> !HasQuorum(c, tally, k)
        decreases rest
      {
        var k :| k in rest;
        rest := rest - {k};
        if |tally[k]| >= IntersectionQuorum(c) {
          return Some(k);
        }
      }
      return None;
    }

    /** Verification that succeeds advances by itself before it returns to its caller. */
    method VerifyNewEpochState(env: Env) returns (out: seq<Action>)
      requires state == Verifying
      modifies this`state, this`verified, this`logged, this`network
      ensures Saturates(c, env, old(View()), View(), out) && Waits(c, env, View())
      decreases 10 - Rank(state), 0
    {
      if leader.None? || !env.verified {
        assert !Enabled(c, env, View());
        SaturatedWaits(c, env, View());
        return [];
      }
      ghost var before := View();
      state := Fetching;
      verified := leader;
      ghost var between := View();
      out := AdvanceState(env);
      ReachesPrepend(c, env, before, between, [], View(), out);
      assert [] + out == out;
    }

    /** The cases of the state switch other than verification. */
    method SwitchOnState(env: Env) returns (changed: bool, out: seq<Action>)
      requires state != Verifying
      modifies this`state, this`verified, this`logged, this`network
      ensures changed ==> Micro(c, env, old(View()), View(), out)
      ensures !changed ==> View() == old(View()) && out == [] && !Enabled(c, env, View())
    {
      changed, out := false, [];
      match state {
        case Prepending =>
          if env.changesQuorum {
            state, changed := Pending, true;
          }
        case Pending =>
          if leader.Some? {
            state, changed := Verifying, true;
          }
        case Fetching =>
          if leader.Some? && env.fetched {
            state, logged, changed := Echoing, leader, true;
            out := [PersistCarried(leader.value), SendEcho(leader.value)];
          }
        case Echoing =>
          var k := FindQuorum(echos);
          if k.Some? {
            state, changed, out := Readying, true, [PersistPrepared(k.value), SendReady(k.value)];
          }
        case Readying =>
          var k := FindQuorum(readies);
          if k.Some? {
            state, network, changed, out := Resuming, k, true, [CommitLogged(logged)];
          }
        case Resuming =>
          if env.resumable {
            state, changed := Ready, true;
          }
        case Ready => state, changed := InProgress, true;
        case InProgress =>
        case Done =>
      }
    }

    /** Advancing repeats the state switch until it changes nothing.  Every pass moves the state
        forward, so this terminates, also through the call from within verification. */
    method AdvanceState(env: Env) returns (out: seq<Action>)
      modifies this`state, this`verified, this`logged, this`network
      ensures Saturates(c, env, old(View()), View(), out) && Waits(c, env, View())
      decreases 10 - Rank(state), 1
    {
      out := [];
      while true
        invariant Reaches(c, env, old(View()), View(), out)
        invariant Rank(state) >= Rank(old(state))
        decreases 10 - Rank(state)
      {
        ghost var t := View();
        if state == Verifying {
          var more := VerifyNewEpochState(env);
          ReachesTrans(c, env, old(View()), t, out, View(), more);
          out := out + more;
          if state == Verifying {
            return;
          }
          continue;
        }
        var changed, more := SwitchOnState(env);
        if !changed {
          SaturatedWaits(c, env, View());
          return;
        }
        MicroAdvances(c, env, t, View(), more);
        ReachesStep(c, env, old(View()), t, out, View(), more);
        out := out + more;
      }
    }

    method ApplyNewEpochEchoMsg(env: Env, source: NodeId, k: NewEpochConfig) returns (out: seq<Action>)
      modifies this
      ensures OnEcho(c, env, old(View()), View(), out, source, k)
    {
      echos := Record(echos, k, source);
      out := AdvanceState(env);
    }

    method ApplyNewEpochReadyMsg(env: Env, source: NodeId, k: NewEpochConfig) returns (out: seq<Action>)
      modifies this
      ensures OnReady(c, env, old(View()), View(), out, source, k)
    {
      if Rank(state) > Rank(Readying) {
        return [];
      }
      readies := Record(readies, k, source);
      if |readies[k]| < SomeCorrectQuorum(c) {
        return [];
      }
      if Rank(state) < Rank(Echoing) {
        out := AdvanceState(env);
        return;
      }
      if Rank(state) < Rank(Readying) {
        state := Readying;
        return [SendReady(k)];
      }
      out := AdvanceState(env);
    }

    method ApplyNewEpochMsg(env: Env, k: NewEpochConfig) returns (out: seq<Action>)
      modifies this
      ensures OnNewEpoch(c, env, old(View()), View(), out, k)
    {
      leader := Some(k);
      out := AdvanceState(env);
    }
  }

  lemma ReachesStep(c: NetworkConfig, env: Env, t: Target, t1: Target, o1: seq<Action>, t2: Target, o2: seq<Action>)
    requires Reaches(c, env, t, t1, o1) && Micro(c, env, t1, t2, o2)
    ensures Reaches(c, env, t, t2, o1 + o2)
  {
    MicroAdvances(c, env, t1, t2, o2);
  }

  lemma {:induction false} ReachesTrans(c: NetworkConfig, env: Env, t: Target, t1: Target, o1: seq<Action>,
                                        t2: Target, o2: seq<Action>)
    requires Reaches(c, env, t, t1, o1) && Reaches(c, env, t1, t2, o2)
    ensures Reaches(c, env, t, t2, o1 + o2) && Rank(t2.state) >= Rank(t1.state)
    decreases Rank(t2.state)
  {
    if t2 == t1 && o2 == [] {
      assert o1 + o2 == o1;
    } else {
      var m: Target, p: seq<Action>, q: seq<Action> :|
        Rank(m.state) < Rank(t2.state) && Reaches(c, env, t1, m, p) && Micro(c, env, m, t2, q) && o2 == p + q;
      ReachesTrans(c, env, t, t1, o1, m, p);
      ReachesStep(c, env, t, m, o1 + p, t2, q);
      Associative(o1, p, q);
    }
  }

  lemma ReachesPrepend(c: NetworkConfig, env: Env, t: Target, t1: Target, o1: seq<Action>, t2: Target, o2: seq<Action>)
    requires Micro(c, env, t, t1, o1) && Reaches(c, env, t1, t2, o2)
    ensures Reaches(c, env, t, t2, o1 + o2)
  {
    assert Reaches(c, env, t, t, []);
    ReachesStep(c, env, t, t, [], t1, o1);
    assert [] + o1 == o1;
    ReachesTrans(c, env, t, t1, o1, t2, o2);
  }

  // ---------------------------------------------------------------- what advancing may do

  function EchoesIn(out: seq<Action>): set<NewEpochConfig> {
    set i | 0 <= i < |out| && out[i].SendEcho? :: out[i].config
  }

  function ReadiesIn(out: seq<Action>): set<NewEpochConfig> {
    set i | 0 <= i < |out| && out[i].SendReady? :: out[i].config
  }

  ghost predicate AtMostOne(s: set<NewEpochConfig>) {
    forall k, k' :: k in s && k' in s ==> k == k'
  }

  /** Between `t` and `t'` tallies stay, at most one echo goes out and only on entering the echoing
      state, at most one ready and only on leaving it, and a delivered configuration has a quorum. */
  ghost predicate Effects(c: NetworkConfig, t: Target, t': Target, out: seq<Action>) {
    && t'.echos == t.echos && t'.readies == t.readies && Rank(t'.state) >= Rank(t.state)
    && AtMostOne(EchoesIn(out)) && AtMostOne(ReadiesIn(out))
    && (EchoesIn(out) != {} ==> Rank(t.state) < Rank(Echoing) <= Rank(t'.state))
    && (ReadiesIn(out) != {} ==> Rank(t.state) < Rank(Readying) <= Rank(t'.state))
    && (forall k :: k in ReadiesIn(out) ==> HasQuorum(c, t.echos, k))
    && (t'.network == t.network || (t'.network.Some? && HasQuorum(c, t.readies, t'.network.value)))
  }

  lemma BroadcastInConcat(o1: seq<Action>, o2: seq<Action>)
    ensures EchoesIn(o1 + o2) == EchoesIn(o1) + EchoesIn(o2)
    ensures ReadiesIn(o1 + o2) == ReadiesIn(o1) + ReadiesIn(o2)
  {
    var o := o1 + o2;
    assert forall i :: 0 <= i < |o1| ==> o[i] == o1[i];
    assert forall i :: 0 <= i < |o2| ==> o[|o1| + i] == o2[i];
    forall k | k in EchoesIn(o) ensures k in EchoesIn(o1) + EchoesIn(o2) {
      var i :| 0 <= i < |o| && o[i].SendEcho? && o[i].config == k;
      assert i >= |o1| ==> o2[i - |o1|] == o[i];
    }
    forall k | k in ReadiesIn(o) ensures k in ReadiesIn(o1) + ReadiesIn(o2) {
      var i :| 0 <= i < |o| && o[i].SendReady? && o[i].config == k;
      assert i >= |o1| ==> o2[i - |o1|] == o[i];
    }
  }

  lemma MicroEffects(c: NetworkConfig, env: Env, t: Target, t': Target, out: seq<Action>)
    requires Micro(c, env, t, t', out)
    ensures Effects(c, t, t', out)
    ensures EchoesIn(out) != {} ==> t.state == Fetching
    ensures ReadiesIn(out) != {} ==> t.state == Echoing
  {
  }

  lemma NoEffects(c: NetworkConfig, t: Target)
    ensures Effects(c, t, t, [])
  {
  }

  lemma {:induction false} ReachesEffects(c: NetworkConfig, env: Env, t: Target, t': Target, out: seq<Action>)
    requires Reaches(c, env, t, t', out)
    ensures Effects(c, t, t', out)
    decreases Rank(t'.state)
  {
    hide Micro;
    hide EchoesIn;
    hide ReadiesIn;
    hide HasQuorum;
    if t' == t && out == [] {
      NoEffects(c, t);
    } else {
      var t1: Target, o1: seq<Action>, o2: seq<Action> :|
        Rank(t1.state) < Rank(t'.state) && Reaches(c, env, t, t1, o1) && Micro(c, env, t1, t', o2) && out == o1 + o2;
      ReachesEffects(c, env, t, t1, o1);
      MicroEffects(c, env, t1, t', o2);
      MicroAdvances(c, env, t1, t', o2);
      BroadcastInConcat(o1, o2);
    }
  }

  // ---------------------------------------------------------------- what is echoed

  /** The configuration that will be echoed: the last one received while fetching, if any was. */
  ghost predicate Tracks(t: Target, replaced: Option<NewEpochConfig>) {
    && (Rank(t.state) < Rank(Fetching) ==> t.logged.None? && replaced.None?)
    && (Rank(t.state) >= Rank(Fetching) ==> t.verified.Some?)
    && (t.state == Fetching ==> t.logged.None? && t.leader == if replaced.Some? then replaced else t.verified)
    && (Rank(t.state) >= Rank(Echoing) ==> t.logged == if replaced.Some? then replaced else t.verified)
  }

  lemma MicroTracks(c: NetworkConfig, env: Env, t: Target, t': Target, out: seq<Action>, replaced: Option<NewEpochConfig>)
    requires Micro(c, env, t, t', out) && Tracks(t, replaced)
    ensures Tracks(t', replaced)
  {
  }

  lemma {:induction false} ReachesTracks(c: NetworkConfig, env: Env, t: Target, t': Target, out: seq<Action>,
                                         replaced: Option<NewEpochConfig>)
    requires Reaches(c, env, t, t', out) && Tracks(t, replaced)
    ensures Tracks(t', replaced)
    decreases Rank(t'.state)
  {
    hide Micro;
    hide Tracks;
    hide Rank;
    if !(t' == t && out == []) {
      var t1: Target, o1: seq<Action>, o2: seq<Action> :|
        Rank(t1.state) < Rank(t'.state) && Reaches(c, env, t, t1, o1) && Micro(c, env, t1, t', o2) && out == o1 + o2;
      ReachesTracks(c, env, t, t1, o1, replaced);
      MicroTracks(c, env, t1, t', o2, replaced);
    }
  }

  /** The last configuration that arrived while the target was fetching, in the first `n` events. */
  function Replacement(targets: seq<Target>, events: seq<Event>, n: nat): Option<NewEpochConfig>
    requires n <= |events| < |targets|
  {
    if n == 0 then None
    else if events[n - 1].GotNewEpoch? && targets[n - 1].state == Fetching then Some(events[n - 1].config)
    else Replacement(targets, events, n - 1)
  }

  ghost predicate Turns(c: NetworkConfig, t: Target, t': Target, event: Event, out: seq<Action>) {
    exists env :: Handles(c, env, t, t', out, event)
  }

  /** What happens to one target, event by event, and what it does. */
  ghost predicate IsHistory(c: NetworkConfig, targets: seq<Target>, events: seq<Event>, outs: seq<seq<Action>>) {
    && |targets| == |events| + 1 && |outs| == |events| && targets[0] == Fresh()
    && forall n :: 0 <= n < |events| ==> Turns(c, targets[n], targets[n + 1], events[n], outs[n])
  }

  lemma HandleTracks(c: NetworkConfig, env: Env, t: Target, t': Target, out: seq<Action>, event: Event,
                     replaced: Option<NewEpochConfig>)
    requires Handles(c, env, t, t', out, event) && Tracks(t, replaced)
    ensures Tracks(t', if event.GotNewEpoch? && t.state == Fetching then Some(event.config) else replaced)
  {
    hide Reaches;
    match event {
      case GotEcho(source, k) => ReachesTracks(c, env, t.(echos := Record(t.echos, k, source)), t', out, replaced);
      case GotReady(source, k) =>
        var t1 := t.(readies := Record(t.readies, k, source));
        if Reaches(c, env, t1, t', out) {
          ReachesTracks(c, env, t1, t', out, replaced);
        }
      case GotNewEpoch(k) =>
        ReachesTracks(c, env, t.(leader := Some(k)), t', out, if t.state == Fetching then Some(k) else replaced);
      case Nudge => ReachesTracks(c, env, t, t', out, replaced);
    }
  }

  lemma {:induction false} HistoryTracks(c: NetworkConfig, targets: seq<Target>, events: seq<Event>,
                                         outs: seq<seq<Action>>, n: nat)
    requires IsHistory(c, targets, events, outs) && n <= |events|
    ensures Tracks(targets[n], Replacement(targets, events, n))
  {
    hide Handles;
    hide Tracks;
    if n == 0 {
      FreshTracks();
    } else {
      HistoryTracks(c, targets, events, outs, n - 1);
      assert Turns(c, targets[n - 1], targets[n - 1 + 1], events[n - 1], outs[n - 1]);
      var env :| Handles(c, env, targets[n - 1], targets[n], outs[n - 1], events[n - 1]);
      HandleTracks(c, env, targets[n - 1], targets[n], outs[n - 1], events[n - 1], Replacement(targets, events, n - 1));
    }
  }

  lemma FreshTracks()
    ensures Tracks(Fresh(), None)
  {
  }

  /** Exactly when a target echoes what it verified: the last NewEpoch message that it received while
      fetching, if there was one, had the verified configuration. */
  lemma EchoedIsVerifiedIff(c: NetworkConfig, targets: seq<Target>, events: seq<Event>,
                            outs: seq<seq<Action>>, n: nat)
    requires IsHistory(c, targets, events, outs) && n <= |events| && targets[n].logged.Some?
    ensures
      var t, last := targets[n], Replacement(targets, events, n);
      t.verified.Some? && (t.logged == t.verified <==> last.None? || last == t.verified)
  {
    HistoryTracks(c, targets, events, outs, n);
  }

  /** A target that has seen NewEpoch messages for `k` only. */
  predicate Knows(t: Target, k: NewEpochConfig) {
    && (t.leader.Some? ==> t.leader.value == k) && (t.verified.Some? ==> t.verified.value == k)
    && (t.logged.Some? ==> t.logged.value == k)
  }

  lemma MicroKnows(c: NetworkConfig, env: Env, t: Target, t': Target, out: seq<Action>, k: NewEpochConfig)
    requires Micro(c, env, t, t', out) && Knows(t, k)
    ensures Knows(t', k)
  {
  }

  lemma {:induction false} ReachesKnows(c: NetworkConfig, env: Env, t: Target, t': Target, out: seq<Action>, k: NewEpochConfig)
    requires Reaches(c, env, t, t', out) && Knows(t, k)
    ensures Knows(t', k)
    decreases Rank(t'.state)
  {
    hide Micro;
    hide Knows;
    hide Rank;
    if !(t' == t && out == []) {
      var t1: Target, o1: seq<Action>, o2: seq<Action> :|
        Rank(t1.state) < Rank(t'.state) && Reaches(c, env, t, t1, o1) && Micro(c, env, t1, t', o2) && out == o1 + o2;
      ReachesKnows(c, env, t, t1, o1, k);
      MicroKnows(c, env, t1, t', o2, k);
    }
  }

  lemma HandleKnows(c: NetworkConfig, env: Env, t: Target, t': Target, out: seq<Action>, event: Event, k: NewEpochConfig)
    requires Handles(c, env, t, t', out, event) && Knows(t, k) && (event.GotNewEpoch? ==> event.config == k)
    ensures Knows(t', k)
  {
    hide Reaches;
    match event {
      case GotEcho(source, k') => ReachesKnows(c, env, t.(echos := Record(t.echos, k', source)), t', out, k);
      case GotReady(source, k') =>
        var t1 := t.(readies := Record(t.readies, k', source));
        if Reaches(c, env, t1, t', out) {
          ReachesKnows(c, env, t1, t', out, k);
        }
      case GotNewEpoch(k') => ReachesKnows(c, env, t.(leader := Some(k')), t', out, k);
      case Nudge => ReachesKnows(c, env, t, t', out, k);
    }
  }

  /** From a leader that sends one configuration, a target echoes what it verified. */
  lemma {:induction false} OneOfferEchoed(c: NetworkConfig, targets: seq<Target>, events: seq<Event>,
                                          outs: seq<seq<Action>>, n: nat, k: NewEpochConfig)
    requires IsHistory(c, targets, events, outs) && n <= |events|
    requires forall m :: 0 <= m < |events| && events[m].GotNewEpoch? ==> events[m].config == k
    ensures Knows(targets[n], k) && (targets[n].logged.Some? ==> targets[n].logged == targets[n].verified)
  {
    hide Handles;
    if n > 0 {
      OneOfferEchoed(c, targets, events, outs, n - 1, k);
      assert Turns(c, targets[n - 1], targets[n - 1 + 1], events[n - 1], outs[n - 1]);
      var env :| Handles(c, env, targets[n - 1], targets[n], outs[n - 1], events[n - 1]);
      HandleKnows(c, env, targets[n - 1], targets[n], outs[n - 1], events[n - 1], k);
      if targets[n].logged.Some? {
        EchoedIsVerifiedIff(c, targets, events, outs, n);
      }
    }
  }

  /** In any state of fetching another NewEpoch message is echoed as soon as its batches are there. */
  lemma ReplacedIsEchoed(c: NetworkConfig, env: Env, t: Target, k: NewEpochConfig) returns (t': Target, out: seq<Action>)
    requires t.state == Fetching && env.fetched && t.echos == map[]
    ensures OnNewEpoch(c, env, t, t', out, k) && out == [PersistCarried(k), SendEcho(k)]
    ensures t'.logged == Some(k) && t'.verified == t.verified
  {
    var t0 := t.(leader := Some(k));
    t' := t0.(state := Echoing, logged := t0.leader);
    out := [PersistCarried(k), SendEcho(k)];
    assert Micro(c, env, t0, t', out);
    assert Reaches(c, env, t0, t0, []);
    assert [] + out == out;
    assert Reaches(c, env, t0, t', out);
    assert !Enabled(c, env, t');
  }

  // ---------------------------------------------------------------- what a target does in all

  function EchoPart(own: Option<NewEpochConfig>): seq<Action> {
    if own.Some? then [PersistCarried(own.value), SendEcho(own.value)] else []
  }

  /** A ready on a quorum of echoes comes with the P entries, one on f+1 readies without. */
  function ReadyPart(k: NewEpochConfig, onEchoes: bool): seq<Action> {
    if onEchoes then [PersistPrepared(k), SendReady(k)] else [SendReady(k)]
  }

  ghost predicate ReadyFor(c: NetworkConfig, t: Target, k: NewEpochConfig, onEchoes: bool) {
    if onEchoes then HasQuorum(c, t.echos, k) else |Votes(t.readies, k)| >= SomeCorrectQuorum(c)
  }

  /** Everything done up to the state of readying. */
  ghost predicate Readied(c: NetworkConfig, t: Target, all: seq<Action>) {
    exists k, onEchoes :: ReadyFor(c, t, k, onEchoes) && all == EchoPart(t.logged) + ReadyPart(k, onEchoes)
  }

  ghost predicate Committed(c: NetworkConfig, t: Target, all: seq<Action>) {
    exists before :: Readied(c, t, before) && all == before + [CommitLogged(t.logged)]
  }

  /** What a target has done, by how far it is: it has logged and echoed one configuration, then sent
      ready for one, and then committed what it logged, each once. */
  ghost predicate HasDone(c: NetworkConfig, t: Target, all: seq<Action>) {
    && (t.logged.Some? <==> Rank(t.state) >= Rank(Echoing))
    && (t.network.Some? <==> Rank(t.state) > Rank(Readying))
    && (t.network.Some? ==> HasQuorum(c, t.readies, t.network.value))
    && if Rank(t.state) < Rank(Echoing) then all == []
       else if t.state == Echoing then all == EchoPart(t.logged)
       else if t.state == Readying then Readied(c, t, all)
       else Committed(c, t, all)
  }

  function Flatten(outs: seq<seq<Action>>): seq<Action> {
    if outs == [] then [] else Flatten(outs[..|outs| - 1]) + outs[|outs| - 1]
  }

  lemma MicroDone(c: NetworkConfig, env: Env, t: Target, t': Target, all: seq<Action>, out: seq<Action>)
    requires HasDone(c, t, all) && Micro(c, env, t, t', out)
    ensures HasDone(c, t', all + out)
  {
    hide HasQuorum;
    if t.state == Echoing {
      var k :| k in t.echos && HasQuorum(c, t.echos, k)
               && t' == t.(state := Readying) && out == [PersistPrepared(k), SendReady(k)];
      assert ReadyFor(c, t', k, true) && out == ReadyPart(k, true);
    } else if t.state == Readying {
      var k, onEchoes :| ReadyFor(c, t, k, onEchoes) && all == EchoPart(t.logged) + ReadyPart(k, onEchoes);
      assert ReadyFor(c, t', k, onEchoes);
      assert Readied(c, t', all) && out == [CommitLogged(t'.logged)];
    } else {
      assert [] + out == out && all + [] == all;
      if Rank(t.state) > Rank(Readying) {
        var before :| Readied(c, t, before) && all == before + [CommitLogged(t.logged)];
        ReadiedKept(c, t, t', before);
      }
    }
  }

  lemma ReadiedKept(c: NetworkConfig, t: Target, t': Target, all: seq<Action>)
    requires Readied(c, t, all) && t'.logged == t.logged && MoreVotes(t.echos, t'.echos) && MoreVotes(t.readies, t'.readies)
    ensures Readied(c, t', all)
  {
    var k, onEchoes :| ReadyFor(c, t, k, onEchoes) && all == EchoPart(t.logged) + ReadyPart(k, onEchoes);
    QuorumKept(c, t.echos, t'.echos, k);
    QuorumKept(c, t.readies, t'.readies, k);
    assert ReadyFor(c, t', k, onEchoes);
  }

  ghost predicate MoreVotes(tally: Tally, tally': Tally) {
    forall k :: Votes(tally, k) <= Votes(tally', k)
  }

  lemma QuorumKept(c: NetworkConfig, tally: Tally, tally': Tally, k: NewEpochConfig)
    requires MoreVotes(tally, tally')
    ensures HasQuorum(c, tally, k) ==> HasQuorum(c, tally', k)
    ensures |Votes(tally, k)| >= SomeCorrectQuorum(c) ==> |Votes(tally', k)| >= SomeCorrectQuorum(c)
  {
    SubsetSize(Votes(tally, k), Votes(tally', k));
  }

  /** Recording a message changes nothing about what was done. */
  lemma DoneKept(c: NetworkConfig, t: Target, t': Target, all: seq<Action>)
    requires HasDone(c, t, all) && t'.logged == t.logged && t'.state == t.state && t'.network == t.network
    requires MoreVotes(t.echos, t'.echos) && MoreVotes(t.readies, t'.readies)
    ensures HasDone(c, t', all)
  {
    if t.network.Some? {
      QuorumKept(c, t.readies, t'.readies, t.network.value);
    }
    hide HasQuorum;
    hide MoreVotes;
    if t.state == Readying {
      ReadiedKept(c, t, t', all);
    } else if Rank(t.state) > Rank(Readying) {
      var before :| Readied(c, t, before) && all == before + [CommitLogged(t.logged)];
      ReadiedKept(c, t, t', before);
    }
  }

  lemma {:induction false} ReachesDone(c: NetworkConfig, env: Env, t: Target, t': Target, all: seq<Action>, out: seq<Action>)
    requires HasDone(c, t, all) && Reaches(c, env, t, t', out)
    ensures HasDone(c, t', all + out)
    decreases Rank(t'.state)
  {
    hide Micro;
    hide HasDone;
    hide Rank;
    if t' == t && out == [] {
      assert all + out == all;
    } else {
      var t1: Target, o1: seq<Action>, o2: seq<Action> :|
        Rank(t1.state) < Rank(t'.state) && Reaches(c, env, t, t1, o1) && Micro(c, env, t1, t', o2) && out == o1 + o2;
      ReachesDone(c, env, t, t1, all, o1);
      MicroDone(c, env, t1, t', all + o1, o2);
      Associative(all, o1, o2);
    }
  }

  lemma RecordMore(tally: Tally, k: NewEpochConfig, source: NodeId)
    ensures MoreVotes(tally, Record(tally, k, source)) && MoreVotes(tally, tally)
  {
  }

  lemma AmplifiedDone(c: NetworkConfig, t: Target, all: seq<Action>, k: NewEpochConfig)
    requires HasDone(c, t, all) && t.state == Echoing && |Votes(t.readies, k)| >= SomeCorrectQuorum(c)
    ensures HasDone(c, t.(state := Readying), all + [SendReady(k)])
  {
    var t' := t.(state := Readying);
    assert ReadyFor(c, t', k, false) && ReadyPart(k, false) == [SendReady(k)];
    assert Readied(c, t', all + [SendReady(k)]);
  }

  lemma HandleDone(c: NetworkConfig, env: Env, t: Target, t': Target, all: seq<Action>, out: seq<Action>, event: Event)
    requires HasDone(c, t, all) && Handles(c, env, t, t', out, event)
    ensures HasDone(c, t', all + out)
  {
    hide Reaches;
    hide HasDone;
    hide MoreVotes;
    hide Record;
    assert all + [] == all;
    match event {
      case GotEcho(source, k) =>
        var t1 := t.(echos := Record(t.echos, k, source));
        RecordMore(t.echos, k, source);
        RecordMore(t.readies, k, source);
        DoneKept(c, t, t1, all);
        ReachesDone(c, env, t1, t', all, out);
      case GotReady(source, k) =>
        var t1 := t.(readies := Record(t.readies, k, source));
        RecordMore(t.echos, k, source);
        RecordMore(t.readies, k, source);
        DoneKept(c, t, t1, all);
        if Reaches(c, env, t1, t', out) {
          ReachesDone(c, env, t1, t', all, out);
        } else if t.state == Echoing && |Votes(t1.readies, k)| >= SomeCorrectQuorum(c) {
          AmplifiedDone(c, t1, all, k);
        }
      case GotNewEpoch(k) =>
        var t1 := t.(leader := Some(k));
        RecordMore(t.echos, k, 0);
        RecordMore(t.readies, k, 0);
        DoneKept(c, t, t1, all);
        ReachesDone(c, env, t1, t', all, out);
      case Nudge => ReachesDone(c, env, t, t', all, out);
    }
  }

  /** Over every history: all that a target did so far is what its state says, in this order. */
  lemma {:induction false} HistoryDone(c: NetworkConfig, targets: seq<Target>, events: seq<Event>,
                                       outs: seq<seq<Action>>, n: nat)
    requires IsHistory(c, targets, events, outs) && n <= |events|
    ensures HasDone(c, targets[n], Flatten(outs[..n]))
  {
    hide Handles;
    if n > 0 {
      HistoryDone(c, targets, events, outs, n - 1);
      assert Turns(c, targets[n - 1], targets[n - 1 + 1], events[n - 1], outs[n - 1]);
      var env :| Handles(c, env, targets[n - 1], targets[n], outs[n - 1], events[n - 1]);
      hide HasDone;
      HandleDone(c, env, targets[n - 1], targets[n], Flatten(outs[..n - 1]), outs[n - 1], events[n - 1]);
      assert outs[..n][..n - 1] == outs[..n - 1];
    }
  }

  // ---------------------------------------------------------------- the network

  /** A correct node with all it has sent in this epoch. */
  datatype Node = Node(target: Target, echoed: set<NewEpochConfig>, readied: set<NewEpochConfig>)

  type Network = map<NodeId, Node>

  datatype Event =
    | GotEcho(source: NodeId, config: NewEpochConfig)
    | GotReady(source: NodeId, config: NewEpochConfig)
    | GotNewEpoch(config: NewEpochConfig)
    | Nudge     // any other event that makes the target advance

  ghost predicate Handles(c: NetworkConfig, env: Env, t: Target, t': Target, out: seq<Action>, event: Event) {
    match event
    case GotEcho(source, k) => OnEcho(c, env, t, t', out, source, k)
    case GotReady(source, k) => OnReady(c, env, t, t', out, source, k)
    case GotNewEpoch(k) => OnNewEpoch(c, env, t, t', out, k)
    case Nudge => Saturates(c, env, t, t', out)
  }

  /** Messages from correct nodes were sent by them; faulty nodes may say anything, repeatedly. */
  ghost predicate Deliverable(c: NetworkConfig, faulty: set<NodeId>, g: Network, event: Event) {
    match event
    case GotEcho(source, k) => source in NodeSet(c) && (source !in faulty ==> source in g && k in g[source].echoed)
    case GotReady(source, k) => source in NodeSet(c) && (source !in faulty ==> source in g && k in g[source].readied)
    case GotNewEpoch(_) => true
    case Nudge => true
  }

  ghost predicate Next(c: NetworkConfig, faulty: set<NodeId>, g: Network, g': Network, i: NodeId, env: Env,
                       event: Event, out: seq<Action>)
  {
    && i in g && Deliverable(c, faulty, g, event)
    && g'.Keys == g.Keys && g' == g[i := g'[i]]
    && Handles(c, env, g[i].target, g'[i].target, out, event)
    && g'[i].echoed == g[i].echoed + EchoesIn(out)
    && g'[i].readied == g[i].readied + ReadiesIn(out)
  }

  ghost predicate NextAny(c: NetworkConfig, faulty: set<NodeId>, g: Network, g': Network) {
    exists i, env, event, out :: Next(c, faulty, g, g', i, env, event, out)
  }

  ghost predicate IsRun(c: NetworkConfig, faulty: set<NodeId>, run: seq<Network>) {
    && FaultBound(c, faulty) && run != []
    && run[0].Keys == NodeSet(c) - faulty
    && (forall i :: i in run[0] ==> run[0][i] == Node(Fresh(), {}, {}))
    && forall t :: 0 < t < |run| ==> NextAny(c, faulty, run[t - 1], run[t])
  }

  /** A quorum whose correct members all echoed `k`. */
  ghost predicate EchoSenders(c: NetworkConfig, faulty: set<NodeId>, g: Network, k: NewEpochConfig, q: set<NodeId>) {
    IsQuorum(c, q) && forall i :: i in q && i !in faulty ==> i in g && k in g[i].echoed
  }

  ghost predicate EchoBacked(c: NetworkConfig, faulty: set<NodeId>, g: Network, k: NewEpochConfig) {
    exists q :: EchoSenders(c, faulty, g, k, q)
  }

  ghost predicate TruthfulEchoes(c: NetworkConfig, faulty: set<NodeId>, g: Network, tally: Tally) {
    forall k, i :: k in tally && i in tally[k] ==> i in NodeSet(c) && (i !in faulty ==> i in g && k in g[i].echoed)
  }

  ghost predicate TruthfulReadies(c: NetworkConfig, faulty: set<NodeId>, g: Network, tally: Tally) {
    forall k, i :: k in tally && i in tally[k] ==> i in NodeSet(c) && (i !in faulty ==> i in g && k in g[i].readied)
  }

  /** What a node sent is bounded by how far it is. */
  ghost predicate NodeInv(n: Node) {
    && AtMostOne(n.echoed) && AtMostOne(n.readied)
    && (n.echoed != {} ==> Rank(n.target.state) >= Rank(Echoing))
    && (n.readied != {} ==> Rank(n.target.state) >= Rank(Readying))
  }

  ghost predicate Inv(c: NetworkConfig, faulty: set<NodeId>, g: Network) {
    && FaultBound(c, faulty) && g.Keys == NodeSet(c) - faulty
    && (forall i :: i in g ==> NodeInv(g[i]))
    && (forall i :: i in g ==> TruthfulEchoes(c, faulty, g, g[i].target.echos))
    && (forall i :: i in g ==> TruthfulReadies(c, faulty, g, g[i].target.readies))
    && (forall i, k :: i in g && k in g[i].readied ==> EchoBacked(c, faulty, g, k))
    && (forall i :: i in g && g[i].target.network.Some? ==>
                      exists j :: j in g && g[i].target.network.value in g[j].readied)
  }

  ghost predicate Grows(g: Network, g': Network) {
    g.Keys == g'.Keys && forall i :: i in g ==> g[i].echoed <= g'[i].echoed && g[i].readied <= g'[i].readied
  }

  lemma StillBacked(c: NetworkConfig, faulty: set<NodeId>, g: Network, g': Network, k: NewEpochConfig)
    requires Grows(g, g') && EchoBacked(c, faulty, g, k)
    ensures EchoBacked(c, faulty, g', k)
  {
    var q :| EchoSenders(c, faulty, g, k, q);
    assert EchoSenders(c, faulty, g', k, q);
  }

  /** Handling an event first records its sender and then has the effects of advancing, except that
      f+1 readies may trigger one more. */
  lemma HandleEffects(c: NetworkConfig, env: Env, t: Target, t': Target, out: seq<Action>, event: Event)
    requires Handles(c, env, t, t', out, event)
    ensures Rank(t'.state) >= Rank(t.state) && AtMostOne(EchoesIn(out)) && AtMostOne(ReadiesIn(out))
    ensures t'.echos == if event.GotEcho? then Record(t.echos, event.config, event.source) else t.echos
    ensures t'.readies == t.readies || (event.GotReady? && t'.readies == Record(t.readies, event.config, event.source))
    ensures EchoesIn(out) != {} ==> Rank(t.state) < Rank(Echoing) <= Rank(t'.state)
    ensures ReadiesIn(out) != {} ==> Rank(t.state) < Rank(Readying) <= Rank(t'.state)
    ensures forall k :: k in ReadiesIn(out) ==>
                          HasQuorum(c, t'.echos, k) || |Votes(t'.readies, k)| >= SomeCorrectQuorum(c)
    ensures t'.network == t.network || (t'.network.Some? && HasQuorum(c, t'.readies, t'.network.value))
  {
    match event {
      case GotEcho(source, k) => ReachesEffects(c, env, t.(echos := Record(t.echos, k, source)), t', out);
      case GotReady(source, k) =>
        var t1 := t.(readies := Record(t.readies, k, source));
        if Reaches(c, env, t1, t', out) {
          ReachesEffects(c, env, t1, t', out);
        }
      case GotNewEpoch(k) => ReachesEffects(c, env, t.(leader := Some(k)), t', out);
      case Nudge => ReachesEffects(c, env, t, t', out);
    }
  }

  lemma RecordEcho(c: NetworkConfig, faulty: set<NodeId>, g: Network, tally: Tally, k: NewEpochConfig, source: NodeId)
    requires TruthfulEchoes(c, faulty, g, tally) && Deliverable(c, faulty, g, GotEcho(source, k))
    ensures TruthfulEchoes(c, faulty, g, Record(tally, k, source))
  {
  }

  lemma RecordReady(c: NetworkConfig, faulty: set<NodeId>, g: Network, tally: Tally, k: NewEpochConfig, source: NodeId)
    requires TruthfulReadies(c, faulty, g, tally) && Deliverable(c, faulty, g, GotReady(source, k))
    ensures TruthfulReadies(c, faulty, g, Record(tally, k, source))
  {
  }

  lemma RecordTruthful(c: NetworkConfig, faulty: set<NodeId>, g: Network, g': Network, i: NodeId, env: Env,
                       event: Event, out: seq<Action>)
    requires Inv(c, faulty, g) && Next(c, faulty, g, g', i, env, event, out)
    ensures TruthfulEchoes(c, faulty, g, g'[i].target.echos) && TruthfulReadies(c, faulty, g, g'[i].target.readies)
  {
    hide Handles;
    hide TruthfulEchoes;
    hide TruthfulReadies;
    hide Record;
    hide Deliverable;
    HandleEffects(c, env, g[i].target, g'[i].target, out, event);
    match event {
      case GotEcho(source, k) => RecordEcho(c, faulty, g, g[i].target.echos, k, source);
      case GotReady(source, k) => RecordReady(c, faulty, g, g[i].target.readies, k, source);
      case GotNewEpoch(_) =>
      case Nudge =>
    }
  }

  lemma StillTruthful(c: NetworkConfig, faulty: set<NodeId>, g: Network, g': Network, tally: Tally)
    requires Grows(g, g')
    ensures TruthfulEchoes(c, faulty, g, tally) ==> TruthfulEchoes(c, faulty, g', tally)
    ensures TruthfulReadies(c, faulty, g, tally) ==> TruthfulReadies(c, faulty, g', tally)
  {
  }

  lemma NodeKept(c: NetworkConfig, env: Env, n: Node, n': Node, event: Event, out: seq<Action>)
    requires NodeInv(n) && Handles(c, env, n.target, n'.target, out, event)
    requires n'.echoed == n.echoed + EchoesIn(out) && n'.readied == n.readied + ReadiesIn(out)
    ensures NodeInv(n')
  {
    hide Handles;
    hide EchoesIn;
    hide ReadiesIn;
    HandleEffects(c, env, n.target, n'.target, out, event);
  }

  lemma NextKeepsTallies(c: NetworkConfig, faulty: set<NodeId>, g: Network, g': Network, i: NodeId, env: Env,
                         event: Event, out: seq<Action>)
    requires Inv(c, faulty, g) && Next(c, faulty, g, g', i, env, event, out)
    ensures Grows(g, g')
    ensures forall j :: j in g' ==> NodeInv(g'[j])
    ensures forall j :: j in g' ==> TruthfulEchoes(c, faulty, g', g'[j].target.echos)
    ensures forall j :: j in g' ==> TruthfulReadies(c, faulty, g', g'[j].target.readies)
  {
    hide Handles;
    hide TruthfulEchoes;
    hide TruthfulReadies;
    hide NodeInv;
    hide EchoBacked;
    NodeKept(c, env, g[i], g'[i], event, out);
    RecordTruthful(c, faulty, g, g', i, env, event, out);
    forall j | j in g'
      ensures TruthfulEchoes(c, faulty, g', g'[j].target.echos) && TruthfulReadies(c, faulty, g', g'[j].target.readies)
    {
      StillTruthful(c, faulty, g, g', g'[j].target.echos);
      StillTruthful(c, faulty, g, g', g'[j].target.readies);
    }
  }

  lemma QuorumOfReadies(c: NetworkConfig)
    requires c.Valid()
    ensures IntersectionQuorum(c) >= SomeCorrectQuorum(c)
  {
  }

  /** A tally of f+1 readies has a correct sender. */
  lemma CorrectReady(c: NetworkConfig, faulty: set<NodeId>, g: Network, tally: Tally,
                     k: NewEpochConfig) returns (j: NodeId)
    requires FaultBound(c, faulty) && TruthfulReadies(c, faulty, g, tally) && |Votes(tally, k)| >= SomeCorrectQuorum(c)
    ensures j in g && k in g[j].readied
  {
    j := SomeCorrect(c, faulty, Votes(tally, k));
  }

  lemma QuorumBacks(c: NetworkConfig, faulty: set<NodeId>, g: Network, echos: Tally, k: NewEpochConfig)
    requires TruthfulEchoes(c, faulty, g, echos) && HasQuorum(c, echos, k)
    ensures EchoBacked(c, faulty, g, k)
  {
    assert k in echos;
    assert EchoSenders(c, faulty, g, k, echos[k]);
  }

  lemma NewReadyBacked(c: NetworkConfig, faulty: set<NodeId>, g: Network, g': Network, i: NodeId, env: Env,
                       event: Event,
                       out: seq<Action>, k: NewEpochConfig)
    requires Inv(c, faulty, g) && Next(c, faulty, g, g', i, env, event, out) && Grows(g, g') && k in ReadiesIn(out)
    requires TruthfulEchoes(c, faulty, g, g'[i].target.echos) && TruthfulReadies(c, faulty, g, g'[i].target.readies)
    ensures EchoBacked(c, faulty, g, k)
  {
    HandleEffects(c, env, g[i].target, g'[i].target, out, event);
    hide Handles;
    var t' := g'[i].target;
    hide Next;
    hide Inv;
    if HasQuorum(c, t'.echos, k) {
      QuorumBacks(c, faulty, g, t'.echos, k);
    } else {
      var j := CorrectReady(c, faulty, g, t'.readies, k);
    }
  }

  lemma NextKeepsInv(c: NetworkConfig, faulty: set<NodeId>, g: Network, g': Network, i: NodeId, env: Env,
                     event: Event, out: seq<Action>)
    requires Inv(c, faulty, g) && Next(c, faulty, g, g', i, env, event, out)
    ensures Inv(c, faulty, g')
  {
    hide Handles;
    hide EchoBacked;
    hide TruthfulEchoes;
    hide TruthfulReadies;
    hide NodeInv;
    NextKeepsTallies(c, faulty, g, g', i, env, event, out);
    RecordTruthful(c, faulty, g, g', i, env, event, out);
    HandleEffects(c, env, g[i].target, g'[i].target, out, event);
    forall j, k | j in g' && k in g'[j].readied ensures EchoBacked(c, faulty, g', k) {
      if k !in g[j].readied {
        NewReadyBacked(c, faulty, g, g', i, env, event, out, k);
      }
      StillBacked(c, faulty, g, g', k);
    }
    forall j | j in g' && g'[j].target.network.Some?
      ensures exists m :: m in g' && g'[j].target.network.value in g'[m].readied
    {
      var k := g'[j].target.network.value;
      if g'[j].target.network != g[j].target.network {
        QuorumOfReadies(c);
        var m := CorrectReady(c, faulty, g, g'[i].target.readies, k);
        assert k in g'[m].readied;
      } else {
        var m :| m in g && k in g[m].readied;
        assert k in g'[m].readied;
      }
    }
  }

  lemma {:induction false} RunKeepsInv(c: NetworkConfig, faulty: set<NodeId>, run: seq<Network>, t: nat)
    requires IsRun(c, faulty, run) && t < |run|
    ensures Inv(c, faulty, run[t])
  {
    if t > 0 {
      RunKeepsInv(c, faulty, run, t - 1);
      hide Inv;
      hide Next;
      assert NextAny(c, faulty, run[t - 1], run[t]);
      var i, env, event, out :| Next(c, faulty, run[t - 1], run[t], i, env, event, out);
      NextKeepsInv(c, faulty, run[t - 1], run[t], i, env, event, out);
    }
  }

  // ---------------------------------------------------------------- agreement

  lemma BackedUnique(c: NetworkConfig, faulty: set<NodeId>, g: Network, k: NewEpochConfig, k': NewEpochConfig)
    requires Inv(c, faulty, g) && EchoBacked(c, faulty, g, k) && EchoBacked(c, faulty, g, k')
    ensures k == k'
  {
    var q :| EchoSenders(c, faulty, g, k, q);
    var q' :| EchoSenders(c, faulty, g, k', q');
    var i := SharedCorrect(c, faulty, q, q');
    assert NodeInv(g[i]);
  }

  /** In every state of every run: all ready messages of correct nodes carry one configuration. */
  lemma ReadiesAgree(c: NetworkConfig, faulty: set<NodeId>, run: seq<Network>, t: nat,
                     i: NodeId, j: NodeId, k: NewEpochConfig, k': NewEpochConfig)
    requires IsRun(c, faulty, run) && t < |run|
    requires i in run[t] && j in run[t] && k in run[t][i].readied && k' in run[t][j].readied
    ensures k == k'
  {
    RunKeepsInv(c, faulty, run, t);
    BackedUnique(c, faulty, run[t], k, k');
  }

  /** Any two correct nodes that have a configuration delivered have the same one. */
  lemma DeliveriesAgree(c: NetworkConfig, faulty: set<NodeId>, run: seq<Network>, t: nat, i: NodeId, j: NodeId)
    requires IsRun(c, faulty, run) && t < |run| && i in run[t] && j in run[t]
    requires run[t][i].target.network.Some? && run[t][j].target.network.Some?
    ensures run[t][i].target.network == run[t][j].target.network
  {
    RunKeepsInv(c, faulty, run, t);
    var g := run[t];
    var m :| m in g && g[i].target.network.value in g[m].readied;
    var n :| n in g && g[j].target.network.value in g[n].readied;
    ReadiesAgree(c, faulty, run, t, m, n, g[i].target.network.value, g[j].target.network.value);
  }

  /** The loops over echo and ready tallies find at most one configuration with a quorum, so their
      iteration order does not matter. */
  lemma QuorumsUnique(c: NetworkConfig, faulty: set<NodeId>, run: seq<Network>, t: nat, i: NodeId,
                      k: NewEpochConfig, k': NewEpochConfig)
    requires IsRun(c, faulty, run) && t < |run| && i in run[t]
    ensures HasQuorum(c, run[t][i].target.echos, k) && HasQuorum(c, run[t][i].target.echos, k') ==> k == k'
    ensures HasQuorum(c, run[t][i].target.readies, k) && HasQuorum(c, run[t][i].target.readies, k') ==> k == k'
  {
    RunKeepsInv(c, faulty, run, t);
    var g := run[t];
    var target := g[i].target;
    if HasQuorum(c, target.echos, k) && HasQuorum(c, target.echos, k') {
      assert EchoSenders(c, faulty, g, k, target.echos[k]) && EchoSenders(c, faulty, g, k', target.echos[k']);
      BackedUnique(c, faulty, g, k, k');
    }
    if HasQuorum(c, target.readies, k) && HasQuorum(c, target.readies, k') {
      QuorumOfReadies(c);
      var m := CorrectReady(c, faulty, g, target.readies, k);
      var n := CorrectReady(c, faulty, g, target.readies, k');
      BackedUnique(c, faulty, g, k, k');
    }
  }
}
