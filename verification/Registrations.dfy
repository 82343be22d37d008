/** The two registration tables of the broker over any run of messages, registrations and removals. */
module Registrations {
  import opened Prelude
  import opened BrokerSpec

  datatype Change =
    | Delivered(identity: string, message: Message)
    | Registered(x: string, identity: string)
    | Unregistered(x: string)

  function Changed(b: BrokerState, c: Change): (b': BrokerState)
    requires Wf(b)
    ensures Wf(b')
  {
    match c
    case Delivered(identity, message) => OnMessage(b, identity, message)
    case Registered(x, identity) => Register(b, x, identity)
    case Unregistered(x) => Unregister(b, x)
  }

  function After(changes: seq<Change>): (b: BrokerState)
    ensures Wf(b)
  {
    if changes == [] then EMPTY_BROKER else Changed(After(changes[..|changes| - 1]), changes[|changes| - 1])
  }

  /** The exchange and identity that a change ties together: a ready message does what a registration does. */
  function Announced(c: Change): Option<(string, string)> {
    match c
    case Delivered(identity, SubprocessReady(x)) => if Truthy(x) then Some((x.value, identity)) else None
    case Registered(x, identity) => Some((x, identity))
    case _ => None
  }

  // ---------------------------------------------------------------- where requests go

  predicate Tied(b: BrokerState, x: string, identity: string) {
    x in b.identities && b.identities[x] == identity
  }

  /** The change announces x, or removes it. */
  predicate Touches(c: Change, x: string) {
    (Announced(c).Some? && Announced(c).value.0 == x) || c == Unregistered(x)
  }

  /** Change i announces x under this identity, and no later change announces or removes x. */
  predicate LastWord(changes: seq<Change>, i: nat, x: string, identity: string) {
    && i < |changes| && Announced(changes[i]) == Some((x, identity))
    && forall j :: i < j < |changes| ==> !Touches(changes[j], x)
  }

  /**
   In every run a request for x goes to an identity if and only if that was the last word on
   x: some change announced it there, and nothing announced or removed x later.
   */
  lemma {:induction false} RequestsGoToLastAnnounced(changes: seq<Change>, x: string, identity: string)
    ensures Tied(After(changes), x, identity) <==> exists i: nat :: LastWord(changes, i, x, identity)
  {
    if changes != [] {
      var earlier, c := changes[..|changes| - 1], changes[|changes| - 1];
      RequestsGoToLastAnnounced(earlier, x, identity);
      if Touches(c, x) {
        assert Announced(c) == Some((x, identity)) ==> LastWord(changes, |changes| - 1, x, identity);
      } else {
        assert Tied(After(changes), x, identity) <==> Tied(After(earlier), x, identity);
        if i: nat :| LastWord(earlier, i, x, identity) {
          assert LastWord(changes, i, x, identity);
        }
        if i: nat :| LastWord(changes, i, x, identity) {
          assert LastWord(earlier, i, x, identity);
        }
      }
    }
  }

  // ---------------------------------------------------------------- the two tables

  predicate TiedBack(b: BrokerState, x: string, identity: string) {
    identity in b.exchanges && b.exchanges[identity] == x
  }

  ghost predicate Inverse(b: BrokerState) {
    forall x, identity :: Tied(b, x, identity) <==> TiedBack(b, x, identity)
  }

  /** The change takes no exchange to another identity, and no identity to another exchange. */
  predicate Keeps(b: BrokerState, c: Change) {
    Announced(c).Some? ==>
      var (x, identity) := Announced(c).value;
      && (x in b.identities ==> b.identities[x] == identity)
      && (identity in b.exchanges ==> b.exchanges[identity] == x)
  }

  /** What an announcement that moves x or takes an identity over leaves: a tie in one table only. */
  lemma MovedIsTorn(b: BrokerState, c: Change)
    requires Wf(b) && Inverse(b) && !Keeps(b, c)
    ensures !Inverse(Changed(b, c))
  {
    var b' := Changed(b, c);
    var (x, identity) := Announced(c).value;
    if x in b.identities && b.identities[x] != identity {
      assert Tied(b, x, b.identities[x]);
      assert TiedBack(b', x, b.identities[x]) && !Tied(b', x, b.identities[x]);
    } else {
      assert TiedBack(b, b.exchanges[identity], identity);
      assert Tied(b', b.exchanges[identity], identity) && !TiedBack(b', b.exchanges[identity], identity);
    }
  }

  lemma KeptIsInverse(b: BrokerState, c: Change)
    requires Wf(b) && Inverse(b) && Keeps(b, c)
    ensures Inverse(Changed(b, c))
  {
    var b' := Changed(b, c);
    forall x, identity
      ensures Tied(b', x, identity) <==> TiedBack(b', x, identity)
    {
      assert Tied(b, x, identity) <==> TiedBack(b, x, identity);
      if c.Unregistered? && c.x in b.identities {
        assert Tied(b, c.x, b.identities[c.x]);
      }
    }
  }

  ghost predicate AlwaysInverse(changes: seq<Change>) {
    Inverse(After(changes)) && (changes != [] ==> AlwaysInverse(changes[..|changes| - 1]))
  }

  predicate AlwaysKeeps(changes: seq<Change>) {
    changes != [] ==>
      && AlwaysKeeps(changes[..|changes| - 1])
      && Keeps(After(changes[..|changes| - 1]), changes[|changes| - 1])
  }

  /**
   The two tables are inverse to each other throughout a run if and only if no announcement
   moves a registered exchange to another identity or takes a registered identity over.
   */
  lemma {:induction false} InverseIffNothingMoves(changes: seq<Change>)
    ensures AlwaysInverse(changes) <==> AlwaysKeeps(changes)
  {
    if changes != [] {
      var earlier, c := changes[..|changes| - 1], changes[|changes| - 1];
      InverseIffNothingMoves(earlier);
      if AlwaysInverse(earlier) {
        if Keeps(After(earlier), c) {
          KeptIsInverse(After(earlier), c);
        } else {
          MovedIsTorn(After(earlier), c);
        }
      }
    }
  }
}
