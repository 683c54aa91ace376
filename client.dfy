/** `class ClientGame` of src/client.ts without its rendering and socket plumbing: the
    snapshot queue, the players map, the local player, the per-tick update with its
    reconciliation and input capture, the socket events' effects on the map, and the
    number-spinner rule of the control panel. */
module Client {
  import opened Wrappers
  import opened Engine
  import opened Keyboard
  import opened ClientSpec

  class ClientGame {
    /** The `BaseCore` part of the object: scheduler fields and `inputSeq`. */
    const core: BaseCore
    /** `keyboard`, indexed by direction: Down, Left, Right, Up. */
    const keyboard: seq<Key>
    /** The `MessageQueue<ISnapshot>`, oldest first. */
    var queue: seq<Snapshot>
    /** The key of the local player in `players`; `None` is `player === null`. */
    var player: Option<string>
    var players: map<string, PlayerData>
    var clientPredict: bool
    var timeDelay: int
    /** Every `applyInput` call so far, in call order. */
    var applied: seq<Applied>
    /** Every input packet handed to `io.emit`, in order. */
    var sent: seq<Input>

    /** The four keys are in place and every player is filed under its own id. */
    ghost predicate WellFormed()
      reads this
    {
      |keyboard| == 4 && Keyed(players)
    }

    /** `WellFormed` with a positive frame rate, which the game loop needs. */
    ghost predicate Valid()
      reads this, core
    {
      core.Valid() && WellFormed()
    }

    function Current(): ClientState
      reads this, core
    {
      ClientState(players, applied, sent, core.inputSeq)
    }

    /** `isDown` of the four keys, in direction order. */
    function Downs(): (r: seq<bool>)
      reads this, keyboard
      requires |keyboard| == 4
      ensures |r| == 4
    {
      [keyboard[0].isDown, keyboard[1].isDown, keyboard[2].isDown, keyboard[3].isDown]
    }

    /** The constructor up to the point where it opens the socket and starts the loop;
        `now` is the `Date.now()` read by `BaseCore`. */
    constructor (frameTime: int, now: int)
      requires frameTime > 0
      ensures Valid() && fresh(core)
      ensures core.frameTime == frameTime && core.nextLoopTime == now as real
      ensures core.inputSeq == 0 && !core.showTickRate
      ensures player == None && players == map[] && queue == [] && !clientPredict
      ensures timeDelay == 1000 && applied == [] && sent == []
      ensures forall i :: 0 <= i < 4 ==> fresh(keyboard[i])
      ensures keyboard[0].State() == Released(40) && keyboard[1].State() == Released(37)
      ensures keyboard[2].State() == Released(39) && keyboard[3].State() == Released(38)
    {
      core := new BaseCore(frameTime, now);
      var down := new Key(40);
      var left := new Key(37);
      var right := new Key(39);
      var up := new Key(38);
      keyboard := [down, left, right, up];
      player := None;
      timeDelay := 1000;
      players := map[];
      clientPredict := false;
      queue := [];
      applied := [];
      sent := [];
    }

    /** The `mapUpdate` socket event: the snapshot joins the queue. */
    method OnMapUpdate(snapshot: Snapshot)
      modifies this`queue
      ensures queue == old(queue) + [snapshot]
    {
      queue := queue + [snapshot];
    }

    /** `queue.recv()`: the oldest snapshot, or nothing when the queue is empty. */
    method Recv() returns (r: Option<Snapshot>)
      modifies this`queue
      ensures old(queue) == [] ==> r == None && queue == []
      ensures old(queue) != [] ==> r == Some(old(queue)[0]) && queue == old(queue)[1..]
    {
      if queue == [] {
        r := None;
      } else {
        r := Some(queue[0]);
        queue := queue[1..];
      }
    }

    /** `applyInput(players[key], input)`. Its body is not part of this model; the call
        is recorded. */
    method ApplyInput(key: string, input: Input)
      modifies this`applied
      ensures applied == old(applied) + [Applied(key, input)]
    {
      applied := applied + [Applied(key, input)];
    }

    /** `createPlayer`: files the record under its own id, replacing what was there. */
    method CreatePlayer(data: PlayerData) returns (key: string)
      modifies this`players
      ensures key == KeyOf(data.id) && players == old(players)[key := data]
      ensures Keyed(old(players)) ==> Keyed(players)
    {
      key := KeyOf(data.id);
      players := players[key := data];
    }

    /** `removePlayer`: deletes the player filed under `id`. For an id that is not in
        the map the source fails on `undefined.canvasEl` before deleting anything;
        `ok` is then false and nothing changes. */
    method RemovePlayer(id: Option<string>) returns (ok: bool)
      modifies this`players
      ensures ok == (KeyOf(id) in old(players))
      ensures players == if ok then old(players) - {KeyOf(id)} else old(players)
      ensures Keyed(old(players)) ==> Keyed(players)
    {
      ok := KeyOf(id) in players;
      if ok {
        players := players - {KeyOf(id)};
      }
    }

    /** The `login` socket event: the record becomes the local player. */
    method OnLogin(data: PlayerData)
      modifies this`players, this`player
      ensures players == old(players)[KeyOf(data.id) := data] && player == Some(KeyOf(data.id))
      ensures Keyed(old(players)) ==> Keyed(players)
    {
      var key := CreatePlayer(data);
      player := Some(key);
    }

    /** The `logout` socket event. */
    method OnLogout(data: PlayerData) returns (ok: bool)
      modifies this`players
      ensures ok == (KeyOf(data.id) in old(players))
      ensures players == if ok then old(players) - {KeyOf(data.id)} else old(players)
      ensures Keyed(old(players)) ==> Keyed(players)
    {
      ok := RemovePlayer(data.id);
    }

    /** The `connect` socket event: every known player is removed. */
    method OnConnect()
      requires Keyed(players)
      modifies this`players
      ensures players == map[]
    {
      var keys := players.Keys;
      while keys != {}
        invariant Keyed(players) && players.Keys == keys
        decreases keys
      {
        var k :| k in keys;
        var ok := RemovePlayer(players[k].id);
        keys := keys - {k};
      }
      assert players == map[];
    }

    /** The `#interpolation` button: switches prediction on or off. */
    method ToggleClientPredict()
      modifies this`clientPredict
      ensures clientPredict == !old(clientPredict)
    {
      clientPredict := !clientPredict;
    }

    /** The splice loop of `processServerMessages` on the pending log `inputs` of the
        player filed under `key`: acknowledged inputs are spliced out, the others are
        replayed through `applyInput` in order and kept. */
    method Reconcile(key: string, inputs: seq<Input>, ack: int) returns (kept: seq<Input>)
      modifies this`applied
      ensures kept == Unacknowledged(inputs, ack)
      ensures applied == old(applied) + AppliedTo(key, kept)
    {
      kept := inputs;
      var i := 0;
      while i < |kept|
        invariant 0 <= i <= |kept|
        invariant kept[..i] + Unacknowledged(kept[i..], ack) == Unacknowledged(inputs, ack)
        invariant applied == old(applied) + AppliedTo(key, kept[..i])
        decreases |kept| - i
      {
        var input := kept[i];
        if input.seqNo <= ack {
          SpliceStep(kept, i, ack);
          kept := kept[..i] + kept[i + 1..];
        } else {
          ApplyInput(key, input);
          KeepStep(key, kept, i, ack);
          i := i + 1;
        }
      }
      assert kept[i..] == [];
      assert kept[..i] == kept;
    }

    /** The body of `for (let playerData of snapshot.players)`. */
    method ProcessEntry(data: PlayerData)
      modifies this`players, this`applied
      ensures Current() == EntryEffect(old(Current()), data, clientPredict)
    {
      var key := KeyOf(data.id);
      if key in players {
        var p := players[key].(pos := data.pos);
        players := players[key := p];
        if clientPredict {
          var kept := Reconcile(key, p.inputs, data.lastInputSeq);
          players := players[key := p.(inputs := kept)];
        } else {
          players := players[key := p.(inputs := [])];
        }
      } else {
        var _ := CreatePlayer(data);
      }
    }

    /** `processServerMessages`: receives snapshots until the queue reports none and
        processes each one's entries in order. */
    method ProcessServerMessages()
      modifies this`players, this`applied, this`queue
      ensures queue == []
      ensures Current() == DrainEffect(old(Current()), old(queue), clientPredict)
    {
      while true
        invariant DrainEffect(Current(), queue, clientPredict) == DrainEffect(old(Current()), old(queue), clientPredict)
        decreases |queue|
      {
        var pending := queue;
        var snapshot := Recv();
        if snapshot.None? {
          break;
        }
        var entries := snapshot.value.players;
        ghost var before := Current();
        for j := 0 to |entries|
          invariant queue == pending[1..]
          invariant SnapshotEffect(Current(), entries[j..], clientPredict) == SnapshotEffect(before, entries, clientPredict)
        {
          assert entries[j..][1..] == entries[j + 1..];
          ProcessEntry(entries[j]);
        }
        assert entries[|entries|..] == [];
        assert DrainEffect(before, pending, clientPredict) == DrainEffect(Current(), queue, clientPredict);
      }
    }

    /** The key loop of `handleInputs`: the directions whose key is down, in key
        order. */
    method HeldDirections() returns (held: seq<Direction>)
      requires |keyboard| == 4
      ensures held == Held(Downs())
    {
      held := [];
      for d := 0 to 4
        invariant held == Held(Downs()[..d])
      {
        assert Downs()[..d + 1][..d] == Downs()[..d];
        if keyboard[d].isDown {
          held := held + [DirectionOf(d)];
        }
      }
      assert Downs()[..4] == Downs();
    }

    /** `handleInputs` at clock reading `nowMs`: collects the held directions and, if
        there are any, numbers a packet with the next sequence number, stores it on the
        local player, sends it and, with prediction on, applies it at once. */
    method HandleInputs(nowMs: int)
      requires WellFormed() && player.Some?
      modifies this`players, this`applied, this`sent, core`inputSeq
      ensures WellFormed()
      ensures Current() == InputEffect(old(Current()), player.value, Held(Downs()), nowMs / 1000, clientPredict)
    {
      var held := HeldDirections();
      if held != [] {
        core.inputSeq := core.inputSeq + 1;
        var packet := Input(core.inputSeq, nowMs / 1000, held, None);
        var local := player.value;
        if local in players {
          players := players[local := players[local].(inputs := players[local].inputs + [packet])];
        }
        sent := sent + [packet];
        if clientPredict {
          ApplyInput(local, packet);
        }
      }
    }

    /** `update` at clock reading `nowMs`: nothing while there is no local player;
        otherwise the snapshot queue is drained, then input is captured (rendering is
        not modelled). */
    method Update(nowMs: int)
      requires WellFormed()
      modifies this`players, this`applied, this`sent, this`queue, core`inputSeq
      ensures WellFormed()
      ensures old(player) == None ==> Current() == old(Current()) && queue == old(queue)
      ensures old(player) != None ==>
        && queue == []
        && Current() == UpdateEffect(old(Current()), old(queue), player.value, Held(Downs()), nowMs / 1000, clientPredict)
    {
      if player == None {
        return;
      }
      ProcessServerMessages();
      DrainEffectFrame(old(Current()), old(queue), clientPredict);
      HandleInputs(nowMs);
    }
  }

  /** The value the number spinner writes back on a click: `dir` is the button's
      `data-dir`, `oldValue` the parsed input text (`None` for `NaN`). "up" adds one;
      anything else subtracts one but never goes below 1. This is the rule as written,
      where the `NaN` guard tests a variable that is overwritten right after. */
  function SpinnerStep(dir: string, oldValue: Option<int>): (r: Option<int>)
    ensures r.None? <==> dir == "up" && oldValue.None?
  {
    if dir == "up" then
      match oldValue
      case Some(v) => Some(v + 1)
      case None => None
    else
      match oldValue
      case Some(v) => if v > 1 then Some(v - 1) else Some(1)
      case None => Some(1)
  }

  /** On numbers the spinner steps up by one and down by one with a floor of 1. */
  lemma SpinnerOnNumbers(dir: string, v: int)
    ensures dir == "up" ==> SpinnerStep(dir, Some(v)) == Some(v + 1)
    ensures dir != "up" ==> SpinnerStep(dir, Some(v)) == Some(if v > 1 then v - 1 else 1)
    ensures dir != "up" ==> SpinnerStep(dir, Some(v)).value >= 1
  {
  }

  /** The "down" button always yields a number of at least 1, even from unreadable
      text. */
  lemma SpinnerDownAtLeastOne(dir: string, oldValue: Option<int>)
    requires dir != "up"
    ensures SpinnerStep(dir, oldValue).Some? && SpinnerStep(dir, oldValue).value >= 1
  {
  }

  /** The "up" button on unreadable text (`parseInt` gives `NaN`) yields `NaN`. */
  lemma SpinnerUpOnUnreadable()
    ensures SpinnerStep("up", None) == None
  {
  }

  /** The spinner rule with the fallback the `isNaN` guard was evidently meant to give:
      unreadable text counts as 1 before stepping. */
  function SpinnerStepGuarded(dir: string, oldValue: Option<int>): (r: int)
    ensures oldValue.Some? ==> SpinnerStep(dir, oldValue) == Some(r)
    ensures dir != "up" ==> r >= 1
    ensures oldValue.None? ==> r == if dir == "up" then 2 else 1
  {
    var v := match oldValue case Some(n) => n case None => 1;
    if dir == "up" then v + 1 else if v > 1 then v - 1 else 1
  }
}
