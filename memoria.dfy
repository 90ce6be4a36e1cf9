/**
 * `js/memoria.js`: the memory game. Each card is a record of its
 * `data-estado` attribute and the `alt` label of its image; the game keeps
 * the two selected cards (by position), the board lock, and whether the
 * delayed covering of a mismatched pair is still pending.
 */
module MemoryGame {
  import opened Wrappers

  // ---------------------------------------------------------------------
  // Cards
  // ---------------------------------------------------------------------

  /** The `data-estado` attribute: absent, "volteada" or "revelada". */
  datatype CardState = Hidden | Flipped | Revealed

  /** A card: its state and the `alt` attribute of its image (`null` when missing). */
  datatype Card = Card(state: CardState, alt: Option<string>)

  /** The number of cards matched by `main article[data-estado="revelada"]`. */
  function CountRevealed(cards: seq<Card>): (n: nat)
    ensures n <= |cards|
  {
    if cards == [] then 0
    else CountRevealed(cards[..|cards| - 1]) + (if cards[|cards| - 1].state == Revealed then 1 else 0)
  }

  /** Every card is revealed exactly when the revealed cards are as many as all the cards. */
  lemma {:induction false} CountRevealedAll(cards: seq<Card>)
    ensures CountRevealed(cards) == |cards| <==> forall k :: 0 <= k < |cards| ==> cards[k].state == Revealed
    decreases |cards|
  {
    if cards != [] {
      var init := cards[..|cards| - 1];
      CountRevealedAll(init);
      if forall k :: 0 <= k < |cards| ==> cards[k].state == Revealed {
        assert forall k :: 0 <= k < |init| ==> init[k].state == Revealed by {
          forall k | 0 <= k < |init| ensures init[k].state == Revealed {
            assert init[k] == cards[k];
          }
        }
      }
      if CountRevealed(cards) == |cards| {
        assert cards[|cards| - 1].state == Revealed;
        assert CountRevealed(init) == |init|;
        forall k | 0 <= k < |cards| ensures cards[k].state == Revealed {
          if k < |init| {
            assert init[k] == cards[k];
          }
        }
      }
    }
  }

  // ---------------------------------------------------------------------
  // barajarCartas: Fisher-Yates
  // ---------------------------------------------------------------------

  /** A value of `Math.random()`. */
  predicate IsDraw(r: real) {
    0.0 <= r < 1.0
  }

  /** A draw scales a positive bound to a value below it. */
  lemma ScaleBelow(r: real, n: real)
    requires IsDraw(r) && n > 0.0
    ensures 0.0 <= r * n < n
  {
    var gap := n - r * n;
    assert gap == (1.0 - r) * n;
  }

  /** `Math.floor(r * (i + 1))`: an index from 0 to `i`. */
  function Pick(r: real, i: nat): (j: int)
    requires IsDraw(r)
    ensures 0 <= j <= i
  {
    ScaleBelow(r, (i + 1) as real);
    (r * (i + 1) as real).Floor
  }

  /** The sequence with the entries at `i` and `j` exchanged. */
  function Swap<T>(s: seq<T>, i: nat, j: nat): (t: seq<T>)
    requires i < |s| && j < |s|
    ensures |t| == |s| && t[i] == s[j] && t[j] == s[i]
    ensures forall k :: 0 <= k < |s| && k != i && k != j ==> t[k] == s[k]
  {
    s[i := s[j]][j := s[i]]
  }

  /** One draw per position, each a value of `Math.random()`. */
  predicate DrawsFor(n: int, draws: seq<real>) {
    |draws| == n && forall k :: 0 <= k < |draws| ==> IsDraw(draws[k])
  }

  /**
   * The shuffle from position `i` down to position 1: the entry at `i` is
   * exchanged with the one at `Pick(draws[i], i)`, then the rest follows.
   */
  function ShuffleDown<T>(s: seq<T>, draws: seq<real>, i: int): seq<T>
    requires DrawsFor(|s|, draws) && i < |s|
    decreases i
  {
    if i <= 0 then s
    else ShuffleDown(Swap(s, i, Pick(draws[i], i)), draws, i - 1)
  }

  /** Exchanging two entries keeps the same cards. */
  lemma SwapPermutes<T>(s: seq<T>, i: nat, j: nat)
    requires i < |s| && j < |s|
    ensures multiset(Swap(s, i, j)) == multiset(s)
  {
    var t := s[i := s[j]];
    assert multiset(t) == multiset(s) - multiset{s[i]} + multiset{s[j]};
  }

  /** The shuffle is a permutation of the cards it starts from. */
  lemma {:induction false} ShuffleDownPermutes<T>(s: seq<T>, draws: seq<real>, i: int)
    requires DrawsFor(|s|, draws) && i < |s|
    ensures |ShuffleDown(s, draws, i)| == |s|
    ensures multiset(ShuffleDown(s, draws, i)) == multiset(s)
    decreases i
  {
    if i > 0 {
      var t := Swap(s, i, Pick(draws[i], i));
      SwapPermutes(s, i, Pick(draws[i], i));
      ShuffleDownPermutes(t, draws, i - 1);
    }
  }

  /** The loop of `barajarCartas` on the array, from the last index down to 1. */
  method FisherYates(a: array<Card>, draws: seq<real>)
    requires DrawsFor(a.Length, draws)
    modifies a
    ensures a[..] == ShuffleDown(old(a[..]), draws, a.Length - 1)
    ensures multiset(a[..]) == multiset(old(a[..]))
  {
    ghost var start := a[..];
    var i := a.Length - 1;
    while i > 0
      invariant -1 <= i < a.Length
      invariant ShuffleDown(a[..], draws, i) == ShuffleDown(start, draws, a.Length - 1)
    {
      var j := Pick(draws[i], i);
      ghost var before := a[..];
      a[i], a[j] := a[j], a[i];
      assert a[..] == Swap(before, i, j);
      i := i - 1;
    }
    ShuffleDownPermutes(start, draws, a.Length - 1);
  }

  /**
   * `barajarCartas`: the cards of the page copied into an array, shuffled
   * in place, and put back in the new order.
   */
  method BarajarCartas(cartas: seq<Card>, draws: seq<real>) returns (barajadas: seq<Card>)
    requires DrawsFor(|cartas|, draws)
    ensures barajadas == ShuffleDown(cartas, draws, |cartas| - 1)
    ensures multiset(barajadas) == multiset(cartas)
  {
    var a := new Card[|cartas|](k requires 0 <= k < |cartas| => cartas[k]);
    assert a[..] == cartas;
    FisherYates(a, draws);
    barajadas := a[..];
  }

  // ---------------------------------------------------------------------
  // class Memoria
  // ---------------------------------------------------------------------

  /** A selection slot holds a flipped card of the board. */
  predicate HoldsFlipped(cards: seq<Card>, slot: Option<nat>) {
    slot.Some? ==> slot.value < |cards| && cards[slot.value].state == Flipped
  }

  /** The cards with the ones at `i` and `j` set to `s`. */
  function SetBoth(cards: seq<Card>, i: nat, j: nat, s: CardState): (r: seq<Card>)
    requires i < |cards| && j < |cards|
    ensures |r| == |cards| && r[i].state == s && r[j].state == s
    ensures forall k :: 0 <= k < |cards| ==> r[k].alt == cards[k].alt
    ensures forall k :: 0 <= k < |cards| && k != i && k != j ==> r[k] == cards[k]
  {
    cards[i := cards[i].(state := s)][j := cards[j].(state := s)]
  }

  class Memoria {
    /** The cards of the page, in page order. */
    var cards: seq<Card>
    /** `primera_carta`, as a position. */
    var first: Option<nat>
    /** `segunda_carta`, as a position. */
    var second: Option<nat>
    /** `tablero_bloqueado`. */
    var locked: bool
    /** Whether the delayed body of `cubrirCartas` is still to run. */
    var coverPending: bool

    /**
     * The state between two events: the selections hold distinct flipped
     * cards, a second card is selected exactly while a mismatched pair waits
     * to be covered, and an unlocked board has no second card.
     */
    predicate Valid()
      reads this
    {
      && HoldsFlipped(cards, first)
      && HoldsFlipped(cards, second)
      && (second.Some? ==> first.Some? && second.value != first.value)
      && (coverPending <==> second.Some?)
      && (!locked ==> second.None?)
    }

    /** The constructor: no selection, the cards shuffled, the board unlocked. */
    constructor(cartas: seq<Card>, draws: seq<real>)
      requires DrawsFor(|cartas|, draws)
      ensures Valid()
      ensures cards == ShuffleDown(cartas, draws, |cartas| - 1)
      ensures multiset(cards) == multiset(cartas)
      ensures first.None? && second.None? && !locked && !coverPending
    {
      var barajadas := BarajarCartas(cartas, draws);
      cards := barajadas;
      first := None;
      second := None;
      locked := false;
      coverPending := false;
    }

    /** `reiniciarAtributos`: both selections cleared, and the board left locked. */
    method ReiniciarAtributos()
      modifies this
      ensures locked && first.None? && second.None?
      ensures cards == old(cards) && coverPending == old(coverPending)
    {
      locked := true;
      first := None;
      second := None;
    }

    /** `comprobarJuego`: whether the game signals completion, which is when every card is revealed. */
    method ComprobarJuego() returns (completed: bool)
      ensures completed <==> forall k :: 0 <= k < |cards| ==> cards[k].state == Revealed
    {
      CountRevealedAll(cards);
      completed := CountRevealed(cards) == |cards|;
    }

    /** `deshabilitarCartas`: both selected cards revealed, completion checked, then the selections cleared. */
    method DeshabilitarCartas() returns (completed: bool)
      requires first.Some? && second.Some? && first.value < |cards| && second.value < |cards|
      requires !coverPending
      modifies this
      ensures cards == SetBoth(old(cards), old(first).value, old(second).value, Revealed)
      ensures completed <==> forall k :: 0 <= k < |cards| ==> cards[k].state == Revealed
      ensures locked && first.None? && second.None? && !coverPending
    {
      cards := SetBoth(cards, first.value, second.value, Revealed);
      completed := ComprobarJuego();
      ReiniciarAtributos();
    }

    /** `cubrirCartas`: the board locked and the covering of the pair scheduled. */
    method CubrirCartas()
      modifies this
      ensures locked && coverPending
      ensures cards == old(cards) && first == old(first) && second == old(second)
    {
      locked := true;
      coverPending := true;
    }

    /** The delayed body of `cubrirCartas`: both selected cards lose their state, then the selections are cleared. */
    method CubrirCartasRetardo()
      requires Valid() && coverPending
      modifies this
      ensures Valid()
      ensures cards == SetBoth(old(cards), old(first).value, old(second).value, Hidden)
      ensures locked && first.None? && second.None? && !coverPending
    {
      cards := SetBoth(cards, first.value, second.value, Hidden);
      coverPending := false;
      ReiniciarAtributos();
    }

    /**
     * `comprobarPareja`: the board is locked; a pair whose `alt` labels are
     * equal is revealed, any other pair is left to be covered.
     */
    method ComprobarPareja() returns (completed: bool)
      requires first.Some? && second.Some? && first.value < |cards| && second.value < |cards|
      requires !coverPending
      modifies this
      ensures locked
      ensures old(cards[first.value].alt == cards[second.value].alt) ==>
        && cards == SetBoth(old(cards), old(first).value, old(second).value, Revealed)
        && first.None? && second.None? && !coverPending
        && (completed <==> forall k :: 0 <= k < |cards| ==> cards[k].state == Revealed)
      ensures old(cards[first.value].alt != cards[second.value].alt) ==>
        && cards == old(cards) && first == old(first) && second == old(second) && coverPending && !completed
    {
      locked := true;
      var logo1 := cards[first.value].alt;
      var logo2 := cards[second.value].alt;
      var sonIguales := logo1 == logo2;
      if sonIguales {
        completed := DeshabilitarCartas();
      } else {
        CubrirCartas();
        completed := false;
      }
    }

    /**
     * `voltearCarta`: a card already flipped or revealed, or any card of a
     * locked board, is ignored. Otherwise the card is flipped and becomes the
     * first selection, or the second, which the pair comparison follows at once.
     */
    method VoltearCarta(i: nat) returns (completed: bool)
      requires Valid() && i < |cards|
      modifies this
      ensures Valid()
      ensures old(locked) ==> locked
      ensures old(cards[i].state) != Hidden || old(locked) ==>
        && cards == old(cards) && first == old(first) && second == old(second)
        && locked == old(locked) && coverPending == old(coverPending) && !completed
      ensures old(cards[i].state) == Hidden && !old(locked) && old(first).None? ==>
        && cards == old(cards)[i := old(cards[i]).(state := Flipped)]
        && first == Some(i) && second.None? && !locked && !completed
      ensures old(cards[i].state) == Hidden && !old(locked) && old(first).Some? ==>
        var f := old(first).value;
        var flipped := old(cards)[i := old(cards[i]).(state := Flipped)];
        && locked
        && (old(cards[f].alt) == old(cards[i].alt) ==>
              && cards == SetBoth(old(cards), f, i, Revealed) && first.None? && second.None?
              && (completed <==> forall k :: 0 <= k < |cards| ==> cards[k].state == Revealed))
        && (old(cards[f].alt) != old(cards[i].alt) ==>
              cards == flipped && first == old(first) && second == Some(i) && coverPending && !completed)
    {
      completed := false;
      if cards[i].state == Revealed || cards[i].state == Flipped || locked {
        return;
      }
      cards := cards[i := cards[i].(state := Flipped)];
      if first.None? {
        first := Some(i);
        return;
      }
      if second.None? {
        second := Some(i);
        completed := ComprobarPareja();
      }
    }
  }
}
