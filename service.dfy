/**
 * The server side of the game: a single service instance that keeps at most
 * one callback channel per player type and relays registrations, moves and
 * aborts to the registered channels.
 *
 * The service does not check turns, occupied cells or the end of the game:
 * every move it receives is relayed. Callback channels are opaque handles;
 * which of them are in the Opened state at the time of a call, and which
 * channel made the call, are inputs of each operation. Outbound one-way calls
 * are appended to `outbox` in the order they are made.
 */
module Service {
  import opened Protocol

  /** A client's callback channel, identified by an opaque id. */
  type Handle = nat

  /** One outbound call: `callback` invoked on channel `to`. */
  datatype Notification = Notification(to: Handle, callback: Callback)

  /** `order` visits every key of `keys` exactly once: one enumeration of the dictionary. */
  ghost predicate IsEnumeration(order: seq<PlayerType>, keys: set<PlayerType>)
  {
    && (forall i, j :: 0 <= i < j < |order| ==> order[i] != order[j])
    && (forall p :: p in order <==> p in keys)
  }

  /** The channels reached by a foreach over `order` whose state is Opened, in visiting order. */
  function OpenChannels(order: seq<PlayerType>, players: map<PlayerType, Handle>, open: set<Handle>): seq<Handle>
  {
    if order == [] then []
    else
      var last := order[|order| - 1];
      OpenChannels(order[..|order| - 1], players, open)
      + (if last in players && players[last] in open then [players[last]] else [])
  }

  /** The registered entries whose channel is Opened. */
  ghost function OpenEntries(players: map<PlayerType, Handle>, open: set<Handle>): set<PlayerType>
  {
    set p | p in players && players[p] in open
  }

  /** `GameStarted` sent to each channel of `to`, in order. */
  function GameStartedTo(to: seq<Handle>): seq<Notification>
  {
    seq(|to|, i requires 0 <= i < |to| => Notification(to[i], GameStarted))
  }

  /** `Moved(move, isYourTurn)` sent to each channel of `to`, the flag true exactly for channels other than the sender. */
  function MovedTo(to: seq<Handle>, move: MoveMetadata, sender: Handle): seq<Notification>
  {
    seq(|to|, i requires 0 <= i < |to| => Notification(to[i], Moved(move, to[i] != sender)))
  }

  /** One more visited entry adds its channel at the end when that channel is Opened. */
  lemma OpenChannelsStep(order: seq<PlayerType>, p: PlayerType, players: map<PlayerType, Handle>, open: set<Handle>)
    ensures OpenChannels(order + [p], players, open) ==
            OpenChannels(order, players, open) + (if p in players && players[p] in open then [players[p]] else [])
  {
  }

  lemma GameStartedToStep(to: seq<Handle>, extra: seq<Handle>)
    ensures GameStartedTo(to + extra) == GameStartedTo(to) + GameStartedTo(extra)
  {
  }

  lemma MovedToStep(to: seq<Handle>, extra: seq<Handle>, move: MoveMetadata, sender: Handle)
    ensures MovedTo(to + extra, move, sender) == MovedTo(to, move, sender) + MovedTo(extra, move, sender)
  {
  }

  /**
   * The channels visited in a foreach over the dictionary are exactly the
   * Opened channels of the visited entries, one per entry.
   */
  lemma {:induction false} OpenChannelsMeaning(order: seq<PlayerType>, players: map<PlayerType, Handle>, open: set<Handle>)
    requires forall i, j :: 0 <= i < j < |order| ==> order[i] != order[j]
    ensures forall h :: h in OpenChannels(order, players, open) <==>
              h in open && exists p :: p in order && p in players && players[p] == h
    ensures |OpenChannels(order, players, open)| == |set p | p in order && p in players && players[p] in open|
  {
    if order != [] {
      var init, last := order[..|order| - 1], order[|order| - 1];
      assert order == init + [last];
      OpenChannelsMeaning(init, players, open);
      var before := set p | p in init && p in players && players[p] in open;
      var after := set p | p in order && p in players && players[p] in open;
      assert last !in init;
      if last in players && players[last] in open {
        assert after == before + {last};
      } else {
        assert after == before;
      }
    }
  }

  /**
   * When both slots are filled, `GameStarted` reaches every registered channel
   * that is Opened, once per entry, and no other channel.
   */
  lemma GameStartedMeaning(order: seq<PlayerType>, players: map<PlayerType, Handle>, open: set<Handle>)
    requires IsEnumeration(order, players.Keys)
    ensures var notes := GameStartedTo(OpenChannels(order, players, open));
      && (forall n :: n in notes ==> n.callback == GameStarted && n.to in open && n.to in players.Values)
      && (forall p :: p in players && players[p] in open ==> Notification(players[p], GameStarted) in notes)
      && |notes| == |OpenEntries(players, open)|
  {
    OpenChannelsMeaning(order, players, open);
    var to := OpenChannels(order, players, open);
    var notes := GameStartedTo(to);
    assert (set p | p in order && p in players && players[p] in open) == OpenEntries(players, open);
    forall n | n in notes
      ensures n.callback == GameStarted && n.to in open && n.to in players.Values
    {
      var i :| 0 <= i < |notes| && notes[i] == n;
      assert to[i] in to;
    }
    forall p | p in players && players[p] in open
      ensures Notification(players[p], GameStarted) in notes
    {
      assert players[p] in to;
      var i :| 0 <= i < |to| && to[i] == players[p];
      assert notes[i] == Notification(players[p], GameStarted);
    }
  }

  /**
   * A relayed move reaches every registered channel that is Opened, once per
   * entry; `isYourTurn` is false for the sender's channel and true for every
   * other channel, and no unregistered or closed channel is called.
   */
  lemma MovedMeaning(order: seq<PlayerType>, players: map<PlayerType, Handle>, open: set<Handle>,
                     move: MoveMetadata, sender: Handle)
    requires IsEnumeration(order, players.Keys)
    ensures var notes := MovedTo(OpenChannels(order, players, open), move, sender);
      && (forall n :: n in notes ==>
            n.callback == Moved(move, n.to != sender) && n.to in open && n.to in players.Values)
      && (forall p :: p in players && players[p] in open ==>
            Notification(players[p], Moved(move, players[p] != sender)) in notes)
      && |notes| == |OpenEntries(players, open)|
  {
    OpenChannelsMeaning(order, players, open);
    var to := OpenChannels(order, players, open);
    var notes := MovedTo(to, move, sender);
    assert (set p | p in order && p in players && players[p] in open) == OpenEntries(players, open);
    forall n | n in notes
      ensures n.callback == Moved(move, n.to != sender) && n.to in open && n.to in players.Values
    {
      var i :| 0 <= i < |notes| && notes[i] == n;
      assert to[i] in to;
    }
    forall p | p in players && players[p] in open
      ensures Notification(players[p], Moved(move, players[p] != sender)) in notes
    {
      assert players[p] in to;
      var i :| 0 <= i < |to| && to[i] == players[p];
      assert notes[i] == Notification(players[p], Moved(move, players[p] != sender));
    }
  }

  /**
   * The side given to a registering player: the requested one when it is
   * free, otherwise the other one. With fewer than two players registered the
   * result is always free, so adding it to the dictionary cannot collide.
   */
  function CheckAvailability(registered: map<PlayerType, Handle>, requestedPlayer: PlayerType): (allotted: PlayerType)
    ensures requestedPlayer !in registered ==> allotted == requestedPlayer
    ensures requestedPlayer in registered ==> allotted == Other(requestedPlayer)
    ensures |registered| < MaxPlayers ==> allotted !in registered
  {
    AtMostTwoPlayers(registered);
    if requestedPlayer in registered then
      if requestedPlayer == Cross then Zero else Cross
    else
      requestedPlayer
  }

  /** The entry for `p` exists and its channel is Opened and is not the sender's. */
  ghost predicate AbortTarget(players: map<PlayerType, Handle>, open: set<Handle>, sender: Handle, p: PlayerType)
  {
    p in players && players[p] in open && players[p] != sender
  }

  class TicTacToeService {
    /** The registered players: one callback channel per player type. */
    var players: map<PlayerType, Handle>
    /** Every outbound call made so far, oldest first. */
    var outbox: seq<Notification>

    constructor ()
      ensures players == map[] && outbox == []
    {
      players := map[];
      outbox := [];
    }

    /**
     * Registers the calling channel `client`. A third registration is refused
     * with `RegistrationFailed` to the caller only. Otherwise the caller gets
     * the requested side or, if taken, the other one, and is told whether it
     * came first; when this fills the second slot, `GameStarted` goes to every
     * registered channel that is Opened. `order` is the enumeration used.
     */
    method Register(requestedPlayer: PlayerType, client: Handle, open: set<Handle>)
      returns (ghost order: seq<PlayerType>)
      modifies this
      ensures old(|players|) == MaxPlayers ==>
                players == old(players) && outbox == old(outbox) + [Notification(client, RegistrationFailed)]
      ensures old(|players|) < MaxPlayers ==>
                var allotted := CheckAvailability(old(players), requestedPlayer);
                && allotted !in old(players)
                && players == old(players)[allotted := client]
                && |players| == old(|players|) + 1
                && outbox == old(outbox)
                     + [Notification(client, Registered(old(players) == map[], allotted))]
                     + (if |players| == MaxPlayers then GameStartedTo(OpenChannels(order, players, open)) else [])
      ensures old(|players|) < MaxPlayers && |players| == MaxPlayers ==> IsEnumeration(order, players.Keys)
    {
      order := [];
      AtMostTwoPlayers(players);
      if |players| == 2 {
        outbox := outbox + [Notification(client, RegistrationFailed)];
        return;
      }

      var allotted := CheckAvailability(players, requestedPlayer);
      assert allotted !in players;  // so the dictionary's Add does not throw
      players := players[allotted := client];
      outbox := outbox + [Notification(client, Registered(|players| == 1, allotted))];

      if |players| == 2 {
        ghost var before := outbox;
        var todo := players.Keys;
        while todo != {}
          invariant players == old(players)[allotted := client]
          invariant todo <= players.Keys
          invariant forall p :: p in order <==> p in players && p !in todo
          invariant forall i, j :: 0 <= i < j < |order| ==> order[i] != order[j]
          invariant outbox == before + GameStartedTo(OpenChannels(order, players, open))
          decreases todo
        {
          var p :| p in todo;
          ghost var reached := if players[p] in open then [players[p]] else [];
          if players[p] in open {
            outbox := outbox + [Notification(players[p], GameStarted)];
          }
          OpenChannelsStep(order, p, players, open);
          GameStartedToStep(OpenChannels(order, players, open), reached);
          order := order + [p];
          todo := todo - {p};
        }
      }
    }

    /**
     * Relays a move to every registered channel that is Opened, telling each
     * whether it is now its turn: true exactly for channels other than the
     * sender's. The registrations do not change and nothing is checked.
     */
    method Move(moveMetadata: MoveMetadata, sender: Handle, open: set<Handle>)
      returns (ghost order: seq<PlayerType>)
      modifies this
      ensures players == old(players)
      ensures IsEnumeration(order, players.Keys)
      ensures outbox == old(outbox) + MovedTo(OpenChannels(order, players, open), moveMetadata, sender)
    {
      order := [];
      var todo := players.Keys;
      while todo != {}
        invariant players == old(players)
        invariant todo <= players.Keys
        invariant forall p :: p in order <==> p in players && p !in todo
        invariant forall i, j :: 0 <= i < j < |order| ==> order[i] != order[j]
        invariant outbox == old(outbox) + MovedTo(OpenChannels(order, players, open), moveMetadata, sender)
        decreases todo
      {
        var p :| p in todo;
        ghost var reached := if players[p] in open then [players[p]] else [];
        if players[p] in open {
          outbox := outbox + [Notification(players[p], Moved(moveMetadata, players[p] != sender))];
        }
        OpenChannelsStep(order, p, players, open);
        MovedToStep(OpenChannels(order, players, open), reached, moveMetadata, sender);
        order := order + [p];
        todo := todo - {p};
      }
    }

    /**
     * Tells the first Opened channel other than the sender's that `player`
     * has aborted (at most one such call), then forgets every registration,
     * whatever the state of the channels.
     */
    method Abort(player: PlayerType, sender: Handle, open: set<Handle>)
      modifies this
      ensures players == map[]
      ensures (forall p :: !AbortTarget(old(players), open, sender, p)) ==> outbox == old(outbox)
      ensures (exists p :: AbortTarget(old(players), open, sender, p)) ==>
                exists p :: AbortTarget(old(players), open, sender, p)
                  && outbox == old(outbox) + [Notification(old(players)[p], Aborted(player))]
    {
      var todo := players.Keys;
      while todo != {}
        invariant todo <= players.Keys
        invariant outbox == old(outbox) && players == old(players)
        invariant forall p :: p in players && p !in todo ==> !AbortTarget(players, open, sender, p)
        decreases todo
      {
        var p :| p in todo;
        if players[p] in open {
          if players[p] != sender {
            outbox := outbox + [Notification(players[p], Aborted(player))];
            assert AbortTarget(players, open, sender, p);
            break;
          }
        }
        todo := todo - {p};
      }
      players := map[];
    }

    /** Forgets the registration of `player`, if any; the other entry is left as it was. */
    method Unregister(player: PlayerType)
      modifies this
      ensures player !in players
      ensures forall q :: q != player ==>
                (q in players <==> q in old(players)) && (q in players ==> players[q] == old(players)[q])
      ensures outbox == old(outbox)
    {
      players := players - {player};
    }
  }

  /** Two players asking for the same side are both admitted, and the game starts for both. */
  method RegistrationScenario()
  {
    var service := new TicTacToeService();
    var open: set<Handle> := {1, 2};
    var order := service.Register(Zero, 1, open);
    assert service.players == map[Zero := 1];
    assert service.outbox == [Notification(1, Registered(true, Zero))];

    order := service.Register(Zero, 2, open);
    assert service.players == map[Zero := 1, Cross := 2];
    assert service.outbox[..2] == [Notification(1, Registered(true, Zero)), Notification(2, Registered(false, Cross))];
    GameStartedMeaning(order, service.players, open);
    var started := GameStartedTo(OpenChannels(order, service.players, open));
    assert service.outbox == service.outbox[..2] + started;
    assert service.players[Zero] == 1 && service.players[Cross] == 2;
    assert Notification(1, GameStarted) in started && Notification(2, GameStarted) in started;

  }

  /** With both sides taken a third player is refused; an abort then tells the other player only and empties the registry. */
  method AbortScenario(service: TicTacToeService)
    requires service.players == map[Zero := 1, Cross := 2]
    modifies service
  {
    var open: set<Handle> := {1, 2, 3};
    var before := service.outbox;
    var order := service.Register(Cross, 3, open);
    assert service.players == map[Zero := 1, Cross := 2];
    assert service.outbox == before + [Notification(3, RegistrationFailed)];

    ghost var registered := service.players;
    service.Abort(Zero, 1, open);
    assert AbortTarget(registered, open, 1, Cross);
    assert forall p :: AbortTarget(registered, open, 1, p) ==> p == Cross;
    assert service.players == map[];
    assert service.outbox == before + [Notification(3, RegistrationFailed), Notification(2, Aborted(Zero))];
  }
}
