/** The pure rules of one round of GridMind, independent of timers and views:
    how taps are judged against the reveal order, the success message, and the
    score records kept per level. The engine class in module Jwe follows these. */
module Round {
  import opened Katyo
  import Decimal

  // ---------------------------------------------------------------------------
  // Judging taps
  // ---------------------------------------------------------------------------

  /** No two tiles of the sequence share an identifier. */
  predicate DistinctIds(s: seq<MahjongKatyo>) {
    forall i, j :: 0 <= i < j < |s| ==> s[i].idantifikasyon != s[j].idantifikasyon
  }

  /** Where a round stands: still selecting with `endeks` tiles right, won, or lost. */
  datatype Verdict = Pending(endeks: nat) | Won | Lost

  predicate ValidTags(board: seq<MahjongKatyo>, tags: seq<nat>) {
    forall k :: 0 <= k < |tags| ==> tags[k] < |board|
  }

  /** One accepted tap on the cell `tag`, with `endeks` tiles already right. */
  function Step(orij: seq<MahjongKatyo>, board: seq<MahjongKatyo>, endeks: nat, tag: nat): (v: Verdict)
    requires endeks < |orij| && tag < |board|
    ensures v.Pending? ==> v.endeks < |orij|
  {
    if Egal(board[tag], orij[endeks]) then
      if endeks + 1 == |orij| then Won else Pending(endeks + 1)
    else Lost
  }

  /** A series of taps from verdict `v`; once the round is decided further taps change nothing. */
  function Replay(orij: seq<MahjongKatyo>, board: seq<MahjongKatyo>, v: Verdict, tags: seq<nat>): Verdict
    requires ValidTags(board, tags)
    requires v.Pending? ==> v.endeks < |orij|
    decreases |tags|
  {
    if tags == [] || !v.Pending? then v
    else Replay(orij, board, Step(orij, board, v.endeks, tags[0]), tags[1..])
  }

  /** The tiles under the tapped cells, in tap order. */
  function Tapped(board: seq<MahjongKatyo>, tags: seq<nat>): (r: seq<MahjongKatyo>)
    requires ValidTags(board, tags)
    ensures |r| == |tags|
  {
    if tags == [] then [] else [board[tags[0]]] + Tapped(board, tags[1..])
  }

  /** Among tiles with distinct identifiers, identity equality is plain equality. */
  lemma EgalInDistinctIsSame(orij: seq<MahjongKatyo>, x: MahjongKatyo, i: nat)
    requires DistinctIds(orij) && x in orij && i < |orij|
    requires Egal(x, orij[i])
    ensures x == orij[i]
  {
    var j :| 0 <= j < |orij| && orij[j] == x;
    assert j == i;
  }

  /** The round is won exactly when the tapped tiles begin with the rest of the
      reveal order, still pending exactly when they are a proper beginning of it,
      and lost otherwise. The board must be a permutation of the reveal order
      and identifiers distinct, as a round's draw guarantees. */
  lemma {:induction false} ReplayVerdict(orij: seq<MahjongKatyo>, board: seq<MahjongKatyo>, i: nat, tags: seq<nat>)
    requires DistinctIds(orij) && multiset(board) == multiset(orij)
    requires i < |orij| && ValidTags(board, tags)
    decreases |tags|
    ensures Replay(orij, board, Pending(i), tags) ==
      if orij[i..] <= Tapped(board, tags) then Won
      else if Tapped(board, tags) < orij[i..] then Pending(i + |tags|)
      else Lost
  {
    var tapped := Tapped(board, tags);
    if tags != [] {
      var x := board[tags[0]];
      assert x in multiset(orij);
      assert tapped[0] == x;
      assert orij[i..][0] == orij[i];
      if Egal(x, orij[i]) {
        EgalInDistinctIsSame(orij, x, i);
        assert orij[i..] == [orij[i]] + orij[i + 1..];
        assert tapped == [x] + Tapped(board, tags[1..]);
        if i + 1 < |orij| {
          ReplayVerdict(orij, board, i + 1, tags[1..]);
        } else {
          assert orij[i..] == [x];
        }
      } else {
        assert x != orij[i];
      }
    }
  }

  /** From the start of a round: won iff the first taps reproduce the reveal order. */
  lemma RoundWonIff(orij: seq<MahjongKatyo>, board: seq<MahjongKatyo>, tags: seq<nat>)
    requires |orij| > 0 && DistinctIds(orij) && multiset(board) == multiset(orij)
    requires ValidTags(board, tags)
    ensures Replay(orij, board, Pending(0), tags) == Won <==>
      |tags| >= |orij| && forall k :: 0 <= k < |orij| ==> board[tags[k]] == orij[k]
  {
    ReplayVerdict(orij, board, 0, tags);
    assert orij[0..] == orij;
    var tapped := Tapped(board, tags);
    TappedAt(board, tags);
    if |tags| >= |orij| && forall k :: 0 <= k < |orij| ==> board[tags[k]] == orij[k] {
      assert orij == tapped[..|orij|];
    }
  }

  lemma {:induction false} TappedAt(board: seq<MahjongKatyo>, tags: seq<nat>)
    requires ValidTags(board, tags)
    ensures forall k :: 0 <= k < |tags| ==> Tapped(board, tags)[k] == board[tags[k]]
  {
    if tags != [] {
      TappedAt(board, tags[1..]);
    }
  }

  // ---------------------------------------------------------------------------
  // The success message
  // ---------------------------------------------------------------------------

  const MesajBaz: string := "You completed the challenge!"

  /** The streak line, naming the win count including this one. */
  function LiyNSeri(kontreSesyon: int): string {
    "\n\n🔥 " + Decimal.IntToDecimal(kontreSesyon + 1) + " wins in a row!"
  }

  function LiyBonus(pwenBonus: int): string {
    "\nBonus: +" + Decimal.IntToDecimal(pwenBonus) + " points"
  }

  /** The message shown after a won round; the streak and bonus counts are read
      before the streak is incremented. */
  function MesajSiyes(kontreSesyon: int, pwenBonus: int): (r: string)
    ensures MesajBaz <= r
    ensures kontreSesyon < 2 ==> r == MesajBaz
  {
    var mesaj := MesajBaz;
    if kontreSesyon >= 2 then
      mesaj + LiyNSeri(kontreSesyon) + (if pwenBonus > 0 then LiyBonus(pwenBonus) else "")
    else mesaj
  }

  predicate EndsWith(s: string, suffix: string) {
    |suffix| <= |s| && s[|s| - |suffix|..] == suffix
  }

  /** The message always opens with the base sentence; it says more exactly when
      the streak before this win was at least 2, the streak line then follows the
      base sentence, and the message ends with the bonus line exactly when the
      streak was at least 2 and the bonus is positive. */
  lemma MesajSiyesShape(kontreSesyon: int, pwenBonus: int)
    ensures MesajBaz <= MesajSiyes(kontreSesyon, pwenBonus)
    ensures MesajSiyes(kontreSesyon, pwenBonus) != MesajBaz <==> kontreSesyon >= 2
    ensures kontreSesyon >= 2 ==> MesajBaz + LiyNSeri(kontreSesyon) <= MesajSiyes(kontreSesyon, pwenBonus)
    ensures EndsWith(MesajSiyes(kontreSesyon, pwenBonus), LiyBonus(pwenBonus)) <==> kontreSesyon >= 2 && pwenBonus > 0
  {
    var m := MesajSiyes(kontreSesyon, pwenBonus);
    var b := LiyBonus(pwenBonus);
    assert b[|b| - 1] == 's';
    if kontreSesyon >= 2 {
      var n := LiyNSeri(kontreSesyon);
      assert |m| > |MesajBaz|;
      assert n[|n| - 1] == '!';
      if pwenBonus > 0 {
        assert m == (MesajBaz + n) + b;
      } else {
        assert m == MesajBaz + n;
        assert m[|m| - 1] == '!';
      }
    } else {
      assert m[|m| - 1] == '!';
    }
  }

  lemma MesajExample()
    ensures MesajSiyes(1, 0) == "You completed the challenge!"
    ensures MesajSiyes(2, 0) == "You completed the challenge!\n\n🔥 3 wins in a row!"
  {
    assert Decimal.IntToDecimal(3) == "3";
  }

  // ---------------------------------------------------------------------------
  // Score records
  // ---------------------------------------------------------------------------

  /** A stored score record; its date is not modelled. */
  datatype AnrejistrePwen = AnrejistrePwen(nivo: NivoJwe, pwen: int)

  /** `chajePwenTotal`: the sum of the points of the records of one level. */
  function TotalPou(records: seq<AnrejistrePwen>, nivo: NivoJwe): (r: int)
    ensures (forall k :: 0 <= k < |records| ==> records[k].nivo != nivo) ==> r == 0
  {
    if records == [] then 0
    else (if records[0].nivo == nivo then records[0].pwen else 0) + TotalPou(records[1..], nivo)
  }

  lemma {:induction false} TotalPouAppend(a: seq<AnrejistrePwen>, b: seq<AnrejistrePwen>, nivo: NivoJwe)
    ensures TotalPou(a + b, nivo) == TotalPou(a, nivo) + TotalPou(b, nivo)
  {
    if a != [] {
      assert (a + b)[0] == a[0];
      assert (a + b)[1..] == a[1..] + b;
      TotalPouAppend(a[1..], b, nivo);
    } else {
      assert a + b == b;
    }
  }

  /** Records of other levels do not count; records of this level all do. */
  lemma {:induction false} TotalPouBounds(records: seq<AnrejistrePwen>, nivo: NivoJwe)
    requires forall k :: 0 <= k < |records| ==> records[k].pwen > 0
    ensures TotalPou(records, nivo) >= 0
    ensures (exists k :: 0 <= k < |records| && records[k].nivo == nivo) ==> TotalPou(records, nivo) > 0
    ensures (forall k :: 0 <= k < |records| ==> records[k].nivo != nivo) ==> TotalPou(records, nivo) == 0
  {
    if records != [] {
      TotalPouBounds(records[1..], nivo);
      if exists k :: 0 <= k < |records| && records[k].nivo == nivo {
        var k :| 0 <= k < |records| && records[k].nivo == nivo;
        if k > 0 {
          assert records[1..][k - 1].nivo == nivo;
        }
      }
    }
  }

  /** The score store's `konsève`: a record is appended only for positive
      points. The store only grows, by at most one record, and never by a
      record without positive points. */
  function Konseve(records: seq<AnrejistrePwen>, pwen: int, nivo: NivoJwe): (r: seq<AnrejistrePwen>)
    ensures records <= r && |r| <= |records| + 1
    ensures |r| > |records| <==> pwen > 0
    ensures forall k :: |records| <= k < |r| ==> r[k] == AnrejistrePwen(nivo, pwen)
    ensures (forall k :: 0 <= k < |records| ==> records[k].pwen > 0) ==> (forall k :: 0 <= k < |r| ==> r[k].pwen > 0)
  {
    if pwen > 0 then records + [AnrejistrePwen(nivo, pwen)] else records
  }

  /** Saving adds the saved points to the reloaded total of that level only, and
      nothing when they are not positive. */
  lemma KonseveTotal(records: seq<AnrejistrePwen>, pwen: int, nivo: NivoJwe, other: NivoJwe)
    ensures TotalPou(Konseve(records, pwen, nivo), nivo) == TotalPou(records, nivo) + (if pwen > 0 then pwen else 0)
    ensures other != nivo ==> TotalPou(Konseve(records, pwen, nivo), other) == TotalPou(records, other)
  {
    var one := [AnrejistrePwen(nivo, pwen)];
    TotalPouAppend(records, one, nivo);
    TotalPouAppend(records, one, other);
    assert one[1..] == [];
  }

  /** As written, a won round saves the new cumulative total. When the screen's
      total came from a reload of the records and was positive, a reload after
      the win shows more than the screen showed: the earlier total is counted twice. */
  lemma ReloadInflatesAfterWin(records: seq<AnrejistrePwen>, nivo: NivoJwe, pwenTotal: int, pwenRound: int)
    requires TotalPou(records, nivo) == pwenTotal && pwenTotal > 0 && pwenRound > 0
    ensures TotalPou(Konseve(records, pwenTotal + pwenRound, nivo), nivo) == (pwenTotal + pwenRound) + pwenTotal
  {
    KonseveTotal(records, pwenTotal + pwenRound, nivo, nivo);
  }

  /** Two plain wins (no bonus) from an empty store: the screen shows 100, a reload 150. */
  lemma ReloadAfterTwoWins(nivo: NivoJwe)
    ensures TotalPou(Konseve(Konseve([], 50, nivo), 100, nivo), nivo) == 150
  {
    KonseveTotal([], 50, nivo, nivo);
    KonseveTotal(Konseve([], 50, nivo), 100, nivo, nivo);
  }

  /** The evidently intended save: a won round records its own points, so that
      the sum a reload computes equals the running total shown on screen. */
  function KonseveRoundPoints(records: seq<AnrejistrePwen>, nivo: NivoJwe, pwenRound: int): seq<AnrejistrePwen> {
    Konseve(records, pwenRound, nivo)
  }

  lemma ReloadMatchesWithRoundPoints(records: seq<AnrejistrePwen>, nivo: NivoJwe, pwenTotal: int, pwenRound: int)
    requires TotalPou(records, nivo) == pwenTotal && pwenRound > 0
    ensures TotalPou(KonseveRoundPoints(records, nivo, pwenRound), nivo) == pwenTotal + pwenRound
  {
    KonseveTotal(records, pwenRound, nivo, nivo);
  }
}
