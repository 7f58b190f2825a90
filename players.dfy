/** The player list both stores keep: a sequence of records with an id, a
    name, an `active` flag and the player's words.  The stores hand a player
    object to `activatePlayer`, which compares by identity; here a player is
    named by its index in the list, and an index outside the list stands for
    an object that is not in it (`undefined`, say). */
module Players {
  import opened Common

  datatype Player<W> = Player(id: int, name: string, active: bool, words: seq<W>)

  /** The list after `activatePlayer(players[idx])`: each flag rewritten. */
  function Activated<W>(ps: seq<Player<W>>, idx: int): (r: seq<Player<W>>)
    ensures |r| == |ps|
  {
    seq(|ps|, j requires 0 <= j < |ps| => ps[j].(active := j == idx))
  }

  /** Activation leaves exactly the chosen player active (nobody when the
      index is outside the list) and changes nothing but the flags. */
  lemma ActivatedOnlyOne<W>(ps: seq<Player<W>>, idx: int)
    ensures forall j :: 0 <= j < |ps| ==> (Activated(ps, idx)[j].active <==> j == idx)
    ensures forall j :: 0 <= j < |ps| ==>
      Activated(ps, idx)[j].id == ps[j].id && Activated(ps, idx)[j].name == ps[j].name &&
      Activated(ps, idx)[j].words == ps[j].words
    ensures ActiveIndex(Activated(ps, idx)) == if 0 <= idx < |ps| then Some(idx) else None
  {
    var r := Activated(ps, idx);
    if 0 <= idx < |ps| {
      assert r[idx].active;
    }
  }

  /** `players.find((p) => p.active)`, as an index. */
  function ActiveIndex<W>(ps: seq<Player<W>>): (r: Option<nat>)
    ensures r.Some? ==> r.value < |ps| && ps[r.value].active &&
                        forall j :: 0 <= j < r.value ==> !ps[j].active
    ensures r.None? <==> forall j :: 0 <= j < |ps| ==> !ps[j].active
  {
    FirstActiveFrom(ps, 0)
  }

  function FirstActiveFrom<W>(ps: seq<Player<W>>, i: nat): (r: Option<nat>)
    requires i <= |ps|
    ensures r.Some? ==> i <= r.value < |ps| && ps[r.value].active &&
                        forall j :: i <= j < r.value ==> !ps[j].active
    ensures r.None? <==> forall j :: i <= j < |ps| ==> !ps[j].active
    decreases |ps| - i
  {
    if i == |ps| then None
    else if ps[i].active then Some(i)
    else FirstActiveFrom(ps, i + 1)
  }

  /** The index `nextPlayer` activates: the one after the active player,
      wrapping from the last to the first; 0 when nobody is active, since
      `indexOf(undefined)` is -1. */
  function NextIndex<W>(ps: seq<Player<W>>): int {
    var index := match ActiveIndex(ps) case Some(a) => a as int case None => -1;
    if index == |ps| - 1 then 0 else index + 1
  }

  /** The index `nextPlayer` picks is the active one's successor modulo
      the length of the list. */
  lemma NextIndexModulo<W>(ps: seq<Player<W>>)
    requires |ps| > 0
    ensures NextIndex(ps) == match ActiveIndex(ps)
      case Some(a) => (a + 1) % |ps|
      case None => 0
  {
    match ActiveIndex(ps)
    case Some(a) =>
      if a == |ps| - 1 {
        assert (a + 1) % |ps| == 0 by {
          assert a + 1 == |ps| * 1 + 0;
        }
      } else {
        assert (a + 1) % |ps| == a + 1 by {
          assert a + 1 == |ps| * 0 + (a + 1);
        }
      }
    case None =>
  }

  /** Turn order is circular by position in the list. */
  lemma NextIndexRotates<W>(ps: seq<Player<W>>)
    requires |ps| > 0
    ensures ActiveIndex(Activated(ps, NextIndex(ps))) ==
      match ActiveIndex(ps)
      case Some(a) => Some((a + 1) % |ps|)
      case None => Some(0)
  {
    NextIndexModulo(ps);
    var n := NextIndex(ps);
    assert 0 <= n < |ps|;
    ActivatedOnlyOne(ps, n);
  }

  /** The largest id in the list, or 0 for an empty list (the `reduce` both
      stores use before choosing a new id). */
  function MaxId<W>(ps: seq<Player<W>>): (m: int)
    ensures m >= 0
    ensures forall j :: 0 <= j < |ps| ==> ps[j].id <= m
    ensures m == 0 || exists j :: 0 <= j < |ps| && ps[j].id == m
    decreases |ps|
  {
    if |ps| == 0 then 0
    else
      var m := MaxId(ps[..|ps| - 1]);
      var last := ps[|ps| - 1];
      assert forall j :: 0 <= j < |ps| - 1 ==> ps[..|ps| - 1][j] == ps[j];
      if last.id > m then last.id else m
  }

  /** `players.find((p) => p.id === id)`, as an index. */
  function IndexOfId<W>(ps: seq<Player<W>>, id: int): (r: Option<nat>)
    ensures r.Some? ==> r.value < |ps| && ps[r.value].id == id &&
                        forall j :: 0 <= j < r.value ==> ps[j].id != id
    ensures r.None? <==> forall j :: 0 <= j < |ps| ==> ps[j].id != id
  {
    FindIndex(ps, (p: Player<W>) => p.id == id)
  }

  function Ids<W>(ps: seq<Player<W>>): set<int> {
    set j | 0 <= j < |ps| :: ps[j].id
  }

  /** At most one player is active, as every store operation except an
      import of a hand-edited state guarantees. */
  predicate AtMostOneActive<W>(ps: seq<Player<W>>) {
    forall i, j :: 0 <= i < |ps| && 0 <= j < |ps| && ps[i].active && ps[j].active ==> i == j
  }

  /** `players.forEach((p) => { p.active = p === player; })`, one flag at a time. */
  method ActivateAll<W>(ps: seq<Player<W>>, idx: int) returns (r: seq<Player<W>>)
    ensures r == Activated(ps, idx)
  {
    r := ps;
    for j := 0 to |ps|
      invariant |r| == |ps|
      invariant forall k :: 0 <= k < j ==> r[k] == ps[k].(active := k == idx)
      invariant forall k :: j <= k < |r| ==> r[k] == ps[k]
    {
      r := r[j := r[j].(active := j == idx)];
    }
  }
}
