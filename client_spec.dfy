/** The meaning of the client loop of src/client.ts as functions on values: what one
    snapshot entry, one snapshot, a drained queue and one input capture do to the
    client's players, its log of `applyInput` calls, its log of sent packets and its
    input sequence counter; and what is proved about them. */
module ClientSpec {
  import opened Wrappers
  import opened Engine

  /** A player record as a snapshot carries it, its vectors as plain coordinates. */
  type PlayerData = Player<Vec>

  /** `ISnapshot`. */
  datatype Snapshot = Snapshot(players: seq<PlayerData>)

  /** One call `applyInput(players[playerId], input)`. */
  datatype Applied = Applied(playerId: string, input: Input)

  /** The part of the client that its update step changes. */
  datatype ClientState = ClientState(
    players: map<string, PlayerData>,
    applied: seq<Applied>,
    sent: seq<Input>,
    inputSeq: int)

  /** The property key JavaScript uses for `players[id]`: a missing id becomes the
      string "undefined". */
  function KeyOf(id: Option<string>): string
  {
    match id
    case Some(s) => s
    case None => "undefined"
  }

  /** Every player is filed under its own id. */
  ghost predicate Keyed(players: map<string, PlayerData>)
  {
    forall k :: k in players ==> KeyOf(players[k].id) == k
  }

  // ---------------------------------------------------------------------------
  // Reconciliation

  /** The pending inputs the server has not acknowledged yet (`seq > ack`), in their
      original order. */
  function Unacknowledged(inputs: seq<Input>, ack: int): (r: seq<Input>)
    ensures |r| <= |inputs|
    ensures forall i :: 0 <= i < |r| ==> r[i].seqNo > ack
    decreases |inputs|
  {
    if inputs == [] then []
    else (if inputs[0].seqNo <= ack then [] else [inputs[0]]) + Unacknowledged(inputs[1..], ack)
  }

  /** The `applyInput` calls that replay `inputs` on player `key`, in order. */
  function AppliedTo(key: string, inputs: seq<Input>): seq<Applied>
  {
    seq(|inputs|, i requires 0 <= i < |inputs| => Applied(key, inputs[i]))
  }

  /** Pending sequence numbers are strictly increasing. */
  ghost predicate Increasing(inputs: seq<Input>)
  {
    forall i, j :: 0 <= i < j < |inputs| ==> inputs[i].seqNo < inputs[j].seqNo
  }

  /** An input survives reconciliation exactly when it was pending and is newer than the
      acknowledged sequence number. */
  lemma {:induction false} UnacknowledgedMembers(inputs: seq<Input>, ack: int)
    ensures forall x :: x in Unacknowledged(inputs, ack) <==> x in inputs && x.seqNo > ack
    ensures |Unacknowledged(inputs, ack)| <= |inputs|
    decreases |inputs|
  {
    if inputs != [] {
      UnacknowledgedMembers(inputs[1..], ack);
      assert inputs == [inputs[0]] + inputs[1..];
    }
  }

  /** When everything pending is newer than the acknowledgement, nothing is dropped. */
  lemma {:induction false} UnacknowledgedAllNew(inputs: seq<Input>, ack: int)
    requires forall i :: 0 <= i < |inputs| ==> inputs[i].seqNo > ack
    ensures Unacknowledged(inputs, ack) == inputs
    decreases |inputs|
  {
    if inputs != [] {
      UnacknowledgedAllNew(inputs[1..], ack);
    }
  }

  /** Reconciliation keeps only pending inputs, so any bounds on their sequence
      numbers carry over. */
  lemma {:induction false} UnacknowledgedWithin(inputs: seq<Input>, ack: int, lo: int, hi: int)
    requires forall i :: 0 <= i < |inputs| ==> lo < inputs[i].seqNo <= hi
    ensures forall i :: 0 <= i < |Unacknowledged(inputs, ack)| ==>
      lo < Unacknowledged(inputs, ack)[i].seqNo <= hi
    decreases |inputs|
  {
    if inputs != [] {
      UnacknowledgedWithin(inputs[1..], ack, lo, hi);
    }
  }

  /** Reconciling an increasing log keeps it increasing. */
  lemma {:induction false} UnacknowledgedIncreasing(inputs: seq<Input>, ack: int)
    requires Increasing(inputs)
    ensures Increasing(Unacknowledged(inputs, ack))
    decreases |inputs|
  {
    if inputs != [] {
      var tail := inputs[1..];
      var rest := Unacknowledged(tail, ack);
      IncreasingTail(inputs);
      UnacknowledgedIncreasing(tail, ack);
      if inputs[0].seqNo > ack {
        var top := inputs[0].seqNo;
        var hi := inputs[|inputs| - 1].seqNo;
        forall i | 0 <= i < |tail| ensures top < tail[i].seqNo <= hi {
          assert tail[i] == inputs[i + 1];
        }
        UnacknowledgedWithin(tail, ack, top, hi);
        var r := [inputs[0]] + rest;
        assert Unacknowledged(inputs, ack) == r;
        forall i, j | 0 <= i < j < |r| ensures r[i].seqNo < r[j].seqNo {
          assert r[j] == rest[j - 1];
          if i > 0 {
            assert r[i] == rest[i - 1];
          }
        }
      } else {
        assert Unacknowledged(inputs, ack) == rest;
      }
    }
  }

  /** The tail of an increasing log is increasing, and its entries are all newer than
      the head. */
  lemma IncreasingTail(inputs: seq<Input>)
    requires Increasing(inputs) && inputs != []
    ensures Increasing(inputs[1..])
    ensures forall i :: 0 <= i < |inputs[1..]| ==> inputs[0].seqNo < inputs[1..][i].seqNo
  {
  }

  /** Splicing out the acknowledged input at `i` keeps the survivors of the whole log
      and the inputs before `i`. */
  lemma SpliceStep(log: seq<Input>, i: nat, ack: int)
    requires i < |log| && log[i].seqNo <= ack
    ensures var spliced := log[..i] + log[i + 1..];
      && spliced[..i] == log[..i]
      && spliced[..i] + Unacknowledged(spliced[i..], ack) == log[..i] + Unacknowledged(log[i..], ack)
  {
  }

  /** Keeping the unacknowledged input at `i` and replaying it moves it into the
      processed prefix. */
  lemma KeepStep(key: string, log: seq<Input>, i: nat, ack: int)
    requires i < |log| && log[i].seqNo > ack
    ensures log[..i + 1] + Unacknowledged(log[i + 1..], ack) == log[..i] + Unacknowledged(log[i..], ack)
    ensures AppliedTo(key, log[..i + 1]) == AppliedTo(key, log[..i]) + [Applied(key, log[i])]
  {
  }

  /** When the acknowledged inputs are exactly the first `k`, reconciliation drops
      exactly those. */
  lemma {:induction false} UnacknowledgedAfter(inputs: seq<Input>, ack: int, k: nat)
    requires k <= |inputs|
    requires forall i :: 0 <= i < k ==> inputs[i].seqNo <= ack
    requires forall i :: k <= i < |inputs| ==> inputs[i].seqNo > ack
    ensures Unacknowledged(inputs, ack) == inputs[k..]
    decreases k
  {
    if k == 0 {
      UnacknowledgedAllNew(inputs, ack);
    } else {
      var tail := inputs[1..];
      assert forall i :: 0 <= i < k - 1 ==> tail[i] == inputs[i + 1];
      assert forall i :: k - 1 <= i < |tail| ==> tail[i] == inputs[i + 1];
      UnacknowledgedAfter(tail, ack, k - 1);
      assert tail[k - 1..] == inputs[k..];
    }
  }

  /** The number of acknowledged inputs at the front of the log. */
  function AcknowledgedPrefix(inputs: seq<Input>, ack: int): (k: nat)
    ensures k <= |inputs|
    decreases |inputs|
  {
    if inputs == [] || inputs[0].seqNo > ack then 0 else 1 + AcknowledgedPrefix(inputs[1..], ack)
  }

  lemma {:induction false} AcknowledgedPrefixAcked(inputs: seq<Input>, ack: int)
    ensures forall i :: 0 <= i < AcknowledgedPrefix(inputs, ack) ==> inputs[i].seqNo <= ack
    ensures AcknowledgedPrefix(inputs, ack) < |inputs| ==> inputs[AcknowledgedPrefix(inputs, ack)].seqNo > ack
    decreases |inputs|
  {
    if inputs != [] && inputs[0].seqNo <= ack {
      var tail := inputs[1..];
      AcknowledgedPrefixAcked(tail, ack);
      forall i | 0 < i < AcknowledgedPrefix(inputs, ack) ensures inputs[i].seqNo <= ack {
        assert inputs[i] == tail[i - 1];
      }
    }
  }

  /** On an increasing log reconciliation drops a prefix: what remains is the tail of
      the log after the last acknowledged input. */
  lemma UnacknowledgedSuffix(inputs: seq<Input>, ack: int)
    requires Increasing(inputs)
    ensures |Unacknowledged(inputs, ack)| <= |inputs|
    ensures Unacknowledged(inputs, ack) == inputs[|inputs| - |Unacknowledged(inputs, ack)|..]
  {
    var k := AcknowledgedPrefix(inputs, ack);
    AcknowledgedPrefixAcked(inputs, ack);
    forall i | k <= i < |inputs| ensures inputs[i].seqNo > ack {
      if i > k {
        assert inputs[k].seqNo < inputs[i].seqNo;
      }
    }
    UnacknowledgedAfter(inputs, ack, k);
  }

  /** The replay example: pending inputs 1..5 acknowledged up to 3 leave exactly 4
      and 5, which are replayed in that order. */
  lemma ReplayExample(key: string, t: int, d: seq<Direction>)
    ensures var log := [Input(1, t, d, None), Input(2, t, d, None), Input(3, t, d, None),
                        Input(4, t, d, None), Input(5, t, d, None)];
      Unacknowledged(log, 3) == [log[3], log[4]]
      && AppliedTo(key, Unacknowledged(log, 3)) == [Applied(key, log[3]), Applied(key, log[4])]
  {
    var log := [Input(1, t, d, None), Input(2, t, d, None), Input(3, t, d, None),
                Input(4, t, d, None), Input(5, t, d, None)];
    var tail := [log[3], log[4]];
    assert log[1..][1..][1..] == tail;
    UnacknowledgedAllNew(tail, 3);
    calc {
      Unacknowledged(log, 3);
      Unacknowledged(log[1..], 3);
      Unacknowledged(log[1..][1..], 3);
      Unacknowledged(log[1..][1..][1..], 3);
      tail;
    }
  }

  // ---------------------------------------------------------------------------
  // Processing snapshots

  /** One entry of a snapshot: a known player has its position snapped to the server's
      and its pending log reconciled (replaying the survivors) or, without prediction,
      cleared; an unknown one is inserted as received. */
  function EntryEffect(s: ClientState, data: PlayerData, predict: bool): (r: ClientState)
    ensures KeyOf(data.id) in r.players && r.players[KeyOf(data.id)].pos == data.pos
    ensures KeyOf(data.id) !in s.players ==> r.players[KeyOf(data.id)] == data
    ensures KeyOf(data.id) in s.players ==>
      r.players[KeyOf(data.id)].inputs
        == if predict then Unacknowledged(s.players[KeyOf(data.id)].inputs, data.lastInputSeq) else []
    ensures KeyOf(data.id) in s.players ==>
      var before := s.players[KeyOf(data.id)];
      var after := r.players[KeyOf(data.id)];
      && after == before.(pos := data.pos, inputs := after.inputs)
      && |after.inputs| <= |before.inputs|
  {
    var key := KeyOf(data.id);
    if key in s.players then
      var kept := if predict then Unacknowledged(s.players[key].inputs, data.lastInputSeq) else [];
      s.(players := s.players[key := s.players[key].(pos := data.pos, inputs := kept)],
         applied := if predict then s.applied + AppliedTo(key, kept) else s.applied)
    else
      s.(players := s.players[key := data])
  }

  /** The entries of one snapshot, first to last. */
  function SnapshotEffect(s: ClientState, entries: seq<PlayerData>, predict: bool): ClientState
    decreases |entries|
  {
    if entries == [] then s
    else SnapshotEffect(EntryEffect(s, entries[0], predict), entries[1..], predict)
  }

  /** A queue of snapshots, oldest first. */
  function DrainEffect(s: ClientState, snapshots: seq<Snapshot>, predict: bool): ClientState
    decreases |snapshots|
  {
    if snapshots == [] then s
    else DrainEffect(SnapshotEffect(s, snapshots[0].players, predict), snapshots[1..], predict)
  }

  /** The player keys named by some entry of `entries`. */
  function EntryKeys(entries: seq<PlayerData>): set<string>
    decreases |entries|
  {
    if entries == [] then {} else {KeyOf(entries[0].id)} + EntryKeys(entries[1..])
  }

  /** The player keys named by some entry of some snapshot of `snapshots`. */
  function DrainKeys(snapshots: seq<Snapshot>): set<string>
    decreases |snapshots|
  {
    if snapshots == [] then {} else EntryKeys(snapshots[0].players) + DrainKeys(snapshots[1..])
  }

  /** Processing one entry never removes a player, files it under its own key, leaves
      every other player as it was and does not touch the sent log or the counter. */
  lemma EntryEffectFrame(s: ClientState, data: PlayerData, predict: bool)
    ensures EntryEffect(s, data, predict).players.Keys == s.players.Keys + {KeyOf(data.id)}
    ensures forall k :: k in s.players && k != KeyOf(data.id) ==>
      EntryEffect(s, data, predict).players[k] == s.players[k]
    ensures Keyed(s.players) ==> Keyed(EntryEffect(s, data, predict).players)
    ensures EntryEffect(s, data, predict).sent == s.sent
    ensures EntryEffect(s, data, predict).inputSeq == s.inputSeq
  {
  }

  /** The same for a whole snapshot. */
  lemma {:induction false} SnapshotEffectFrame(s: ClientState, entries: seq<PlayerData>, predict: bool)
    ensures SnapshotEffect(s, entries, predict).players.Keys == s.players.Keys + EntryKeys(entries)
    ensures forall k :: k in s.players && k !in EntryKeys(entries) ==>
      SnapshotEffect(s, entries, predict).players[k] == s.players[k]
    ensures Keyed(s.players) ==> Keyed(SnapshotEffect(s, entries, predict).players)
    ensures SnapshotEffect(s, entries, predict).sent == s.sent
    ensures SnapshotEffect(s, entries, predict).inputSeq == s.inputSeq
    decreases |entries|
  {
    if entries != [] {
      EntryEffectFrame(s, entries[0], predict);
      SnapshotEffectFrame(EntryEffect(s, entries[0], predict), entries[1..], predict);
    }
  }

  /** Draining the queue keeps every known player and adds exactly the unknown ones the
      snapshots name; players no snapshot names are left as they were. */
  lemma {:induction false} DrainEffectFrame(s: ClientState, snapshots: seq<Snapshot>, predict: bool)
    ensures DrainEffect(s, snapshots, predict).players.Keys == s.players.Keys + DrainKeys(snapshots)
    ensures forall k :: k in s.players && k !in DrainKeys(snapshots) ==>
      DrainEffect(s, snapshots, predict).players[k] == s.players[k]
    ensures Keyed(s.players) ==> Keyed(DrainEffect(s, snapshots, predict).players)
    ensures DrainEffect(s, snapshots, predict).sent == s.sent
    ensures DrainEffect(s, snapshots, predict).inputSeq == s.inputSeq
    decreases |snapshots|
  {
    if snapshots != [] {
      SnapshotEffectFrame(s, snapshots[0].players, predict);
      DrainEffectFrame(SnapshotEffect(s, snapshots[0].players, predict), snapshots[1..], predict);
    }
  }

  /** The local player's pending log is in order: it is known, its sequence numbers
      increase strictly, and none is beyond the client's counter. */
  ghost predicate LogOrdered(s: ClientState, local: string)
  {
    && local in s.players
    && Increasing(s.players[local].inputs)
    && forall i :: 0 <= i < |s.players[local].inputs| ==> s.players[local].inputs[i].seqNo <= s.inputSeq
  }

  lemma EntryEffectKeepsLogOrdered(s: ClientState, data: PlayerData, predict: bool, local: string)
    requires LogOrdered(s, local)
    ensures LogOrdered(EntryEffect(s, data, predict), local)
  {
    var key := KeyOf(data.id);
    if key == local && predict {
      var log := s.players[local].inputs;
      var kept := Unacknowledged(log, data.lastInputSeq);
      UnacknowledgedIncreasing(log, data.lastInputSeq);
      var lo := if log == [] then 0 else log[0].seqNo - 1;
      forall i | 0 <= i < |log| ensures lo < log[i].seqNo <= s.inputSeq {
        if i > 0 {
          assert log[0].seqNo < log[i].seqNo;
        }
      }
      UnacknowledgedWithin(log, data.lastInputSeq, lo, s.inputSeq);
    }
  }

  lemma {:induction false} SnapshotEffectKeepsLogOrdered(s: ClientState, entries: seq<PlayerData>, predict: bool, local: string)
    requires LogOrdered(s, local)
    ensures LogOrdered(SnapshotEffect(s, entries, predict), local)
    decreases |entries|
  {
    if entries != [] {
      EntryEffectKeepsLogOrdered(s, entries[0], predict, local);
      SnapshotEffectKeepsLogOrdered(EntryEffect(s, entries[0], predict), entries[1..], predict, local);
    }
  }

  /** Once the local player is known with an ordered log, draining any queue of
      snapshots keeps it known and its log ordered. */
  lemma {:induction false} DrainEffectKeepsLogOrdered(s: ClientState, snapshots: seq<Snapshot>, predict: bool, local: string)
    requires LogOrdered(s, local)
    ensures LogOrdered(DrainEffect(s, snapshots, predict), local)
    decreases |snapshots|
  {
    if snapshots != [] {
      SnapshotEffectKeepsLogOrdered(s, snapshots[0].players, predict, local);
      DrainEffectKeepsLogOrdered(SnapshotEffect(s, snapshots[0].players, predict), snapshots[1..], predict, local);
    }
  }

  // ---------------------------------------------------------------------------
  // Capturing input

  /** The held directions, from the first `|down|` keyboard slots in slot order
      (Down, Left, Right, Up): `for (let direction in Object.keys(keyboard))`. */
  function Held(down: seq<bool>): (r: seq<Direction>)
    requires |down| <= 4
    ensures |r| <= |down|
    ensures (forall i :: 0 <= i < |down| ==> down[i]) ==> |r| == |down|
    decreases |down|
  {
    if down == [] then []
    else Held(down[..|down| - 1]) + (if down[|down| - 1] then [DirectionOf(|down| - 1)] else [])
  }

  /** A direction is captured exactly when its key is down. */
  lemma {:induction false} HeldMembers(down: seq<bool>)
    requires |down| <= 4
    ensures forall d :: d in Held(down) <==> Ordinal(d) < |down| && down[Ordinal(d)]
    decreases |down|
  {
    if down != [] {
      var init := down[..|down| - 1];
      HeldMembers(init);
      forall d ensures d in Held(down) <==> Ordinal(d) < |down| && down[Ordinal(d)] {
        if Ordinal(d) < |init| {
          assert init[Ordinal(d)] == down[Ordinal(d)];
        }
      }
    }
  }

  /** Captured directions come in slot order, each at most once. */
  lemma {:induction false} HeldInSlotOrder(down: seq<bool>)
    requires |down| <= 4
    ensures forall i :: 0 <= i < |Held(down)| ==> Ordinal(Held(down)[i]) < |down|
    ensures forall i, j :: 0 <= i < j < |Held(down)| ==> Ordinal(Held(down)[i]) < Ordinal(Held(down)[j])
    decreases |down|
  {
    if down != [] {
      HeldInSlotOrder(down[..|down| - 1]);
    }
  }

  /** Nothing is captured exactly when no key is down. */
  lemma {:induction false} HeldEmpty(down: seq<bool>)
    requires |down| <= 4
    ensures Held(down) == [] <==> forall i :: 0 <= i < |down| ==> !down[i]
    decreases |down|
  {
    if down != [] {
      var init := down[..|down| - 1];
      HeldEmpty(init);
      assert forall i :: 0 <= i < |init| ==> init[i] == down[i];
    }
  }

  /** One `handleInputs` call: with some key held, the counter rises by one and a packet
      carrying it is appended to the local pending log (when the local player is in the
      map), to the sent log and, with prediction on, to the applied log. */
  function InputEffect(s: ClientState, local: string, held: seq<Direction>, time: int, predict: bool): (r: ClientState)
    ensures r.players.Keys == s.players.Keys
    ensures forall k :: k in s.players && k != local ==> r.players[k] == s.players[k]
    ensures held != [] ==> r.sent == s.sent + [Input(r.inputSeq, time, held, None)] && r.inputSeq > s.inputSeq
    ensures held == [] ==> r == s
  {
    if held == [] then s
    else
      var packet := Input(s.inputSeq + 1, time, held, None);
      s.(players :=
           if local in s.players
           then s.players[local := s.players[local].(inputs := s.players[local].inputs + [packet])]
           else s.players,
         applied := if predict then s.applied + [Applied(local, packet)] else s.applied,
         sent := s.sent + [packet],
         inputSeq := s.inputSeq + 1)
  }

  /** Capturing input keeps the local log ordered, the new packet landing last and
      numbered by the new counter; with nothing held nothing changes. */
  lemma InputEffectKeepsLogOrdered(s: ClientState, local: string, held: seq<Direction>, time: int, predict: bool)
    requires LogOrdered(s, local)
    ensures var r := InputEffect(s, local, held, time, predict);
      && LogOrdered(r, local)
      && (held == [] ==> r == s)
      && (held != [] ==>
            && r.inputSeq == s.inputSeq + 1
            && r.players[local].inputs == s.players[local].inputs + [Input(r.inputSeq, time, held, None)])
  {
  }

  /** One client update that has a local player: the queue is drained, then input is
      captured. The local log stays ordered. */
  function UpdateEffect(s: ClientState, queue: seq<Snapshot>, local: string, held: seq<Direction>,
                        time: int, predict: bool): ClientState
  {
    InputEffect(DrainEffect(s, queue, predict), local, held, time, predict)
  }

  lemma UpdateKeepsLogOrdered(s: ClientState, queue: seq<Snapshot>, local: string, held: seq<Direction>,
                              time: int, predict: bool)
    requires LogOrdered(s, local)
    ensures LogOrdered(UpdateEffect(s, queue, local, held, time, predict), local)
  {
    DrainEffectKeepsLogOrdered(s, queue, predict, local);
    InputEffectKeepsLogOrdered(DrainEffect(s, queue, predict), local, held, time, predict);
  }
}
