/** The round engine of GridMind's game screen (JweViewController.swift).
    The view controller's timer and delayed callbacks become explicit calls:
    `Start` (a new round), `BeginCountdown` (after the reveal animation),
    `Tick` (one timer firing), `Tap` (a tap on a grid cell) and `Teardown`
    (the screen disappearing). The tile draw, the shuffle and the bonus come
    from the tile and score managers and enter as parameters. */
module JweKontrole {
  import opened Katyo
  import opened Round

  /** The phases of a round. */
  datatype EtaJwe = Afichaj | Konte | Melanje | Jwe | Rezilta

  /** `mizeAjouPouEtaJwe`: the grid accepts taps only while the player selects. */
  function InteraksyonAktive(eta: EtaJwe): (r: bool)
    ensures r <==> eta == Jwe
  {
    match eta
    case Afichaj => false
    case Konte => false
    case Melanje => false
    case Jwe => true
    case Rezilta => false
  }

  /** The dialog the last result asked for: a success with its message and the
      round's points, or a failure. */
  datatype Dyalog = SanDyalog | DyalogSiyes(mesaj: string, pwen: int) | DyalogEchek(mesaj: string)

  /** Points for completing a round before the bonus. */
  const PwenBaz: int := 50
  /** The countdown's starting value, in seconds. */
  const TanKonte: int := 10
  /** The countdown value at which the board is shuffled. */
  const TanMelanje: int := 5
  const MesajEchek: string := "Wrong tile selected!\nTry again."

  /** `konfigireGrid`'s numbering of the cells, row by row: the cell in row r and
      column c gets the tag r * kolon + c. Every tag of 0 ..< kolon * ranje is
      given exactly once, in order. */
  method CellTags(kolon: nat, ranje: nat) returns (tags: seq<int>)
    ensures |tags| == kolon * ranje
    ensures forall i :: 0 <= i < |tags| ==> tags[i] == i
  {
    tags := [];
    var ranjEndeks := 0;
    while ranjEndeks < ranje
      invariant 0 <= ranjEndeks <= ranje
      invariant |tags| == ranjEndeks * kolon
      invariant forall i :: 0 <= i < |tags| ==> tags[i] == i
    {
      var kolonEndeks := 0;
      while kolonEndeks < kolon
        invariant 0 <= kolonEndeks <= kolon
        invariant |tags| == ranjEndeks * kolon + kolonEndeks
        invariant forall i :: 0 <= i < |tags| ==> tags[i] == i
      {
        tags := tags + [ranjEndeks * kolon + kolonEndeks];
        kolonEndeks := kolonEndeks + 1;
      }
      ranjEndeks := ranjEndeks + 1;
    }
  }

  class JweMote {
    const nivo: NivoJwe
    /** The score manager's bonus for a given streak. */
    const kalkileBonus: nat -> nat

    var eta: EtaJwe
    /** The board: the tile shown in each cell, indexed by the cell's tag. */
    var katyoLis: seq<MahjongKatyo>
    /** The reveal order the player must reproduce. */
    var orijinalSekans: seq<MahjongKatyo>
    var seleksyonSekans: seq<MahjongKatyo>
    /** `endèksSeleksyonAktiyèl`: how many tiles the player has got right. */
    var endeks: nat
    var tanRestan: int
    /** Whether the countdown timer is scheduled and valid. */
    var konteAktif: bool
    var pwenTotal: int
    /** The score manager's win streak. */
    var kontreSesyon: nat
    /** The score manager's stored records. */
    var anrejistreman: seq<AnrejistrePwen>
    var dennyeDyalog: Dyalog
    /** How many times the board was shuffled during the current countdown. */
    ghost var melanjeFwa: nat

    ghost predicate Valid()
      reads this
    {
      && |orijinalSekans| == KantiteTotalKatyo(nivo)
      && DistinctIds(orijinalSekans)
      && |katyoLis| == |orijinalSekans| && multiset(katyoLis) == multiset(orijinalSekans)
      && endeks <= |orijinalSekans|
      && seleksyonSekans == orijinalSekans[..endeks]
      && 0 <= tanRestan <= TanKonte
      && (konteAktif ==> eta == Konte || eta == Melanje)
      && (eta == Afichaj ==> katyoLis == orijinalSekans && endeks == 0 && melanjeFwa == 0)
      && (eta == Konte ==> endeks == 0 && melanjeFwa == 0 && tanRestan > TanMelanje)
      && (eta == Melanje ==> endeks == 0 && melanjeFwa == 1 && 0 < tanRestan <= TanMelanje)
      && (eta == Jwe ==> endeks < |orijinalSekans| && tanRestan == 0 && melanjeFwa == 1)
      && (eta == Rezilta ==> melanjeFwa == 1)
    }

    /** Where the round stands: a result phase is won when every tile was
        matched and lost otherwise; every other phase is still pending. */
    function Verdikt(): Verdict
      reads this
    {
      if eta == Rezilta then (if endeks == |orijinalSekans| then Won else Lost)
      else Pending(endeks)
    }

    /** `init(nivo:)` followed by `viewDidLoad`: load the level's total, then start a round. */
    constructor (nivo: NivoJwe, kalkileBonus: nat -> nat, anrejistreman: seq<AnrejistrePwen>,
                 kontreSesyon: nat, drawn: seq<MahjongKatyo>)
      requires |drawn| == KantiteTotalKatyo(nivo) && DistinctIds(drawn)
      ensures Valid()
      ensures this.nivo == nivo && this.kalkileBonus == kalkileBonus
      ensures this.anrejistreman == anrejistreman && this.kontreSesyon == kontreSesyon
      ensures pwenTotal == TotalPou(anrejistreman, nivo)
      ensures eta == Afichaj && katyoLis == drawn && orijinalSekans == drawn
      ensures seleksyonSekans == [] && endeks == 0 && tanRestan == TanKonte && !konteAktif
      ensures dennyeDyalog == SanDyalog
    {
      this.nivo := nivo;
      this.kalkileBonus := kalkileBonus;
      this.anrejistreman := anrejistreman;
      this.kontreSesyon := kontreSesyon;
      eta := Afichaj;
      katyoLis, orijinalSekans, seleksyonSekans := [], [], [];
      endeks := 0;
      tanRestan := TanKonte;
      konteAktif := false;
      pwenTotal := 0;
      dennyeDyalog := SanDyalog;
      melanjeFwa := 0;
      new;
      ChajePwenTotal();
      Start(drawn);
    }

    /** `chajePwenTotal`: the running total starts as the sum of the stored points of this level. */
    method ChajePwenTotal()
      modifies this`pwenTotal
      ensures pwenTotal == TotalPou(anrejistreman, nivo)
    {
      pwenTotal := TotalPou(anrejistreman, nivo);
    }

    /** `kòmanseJwe`: the drawn tiles become both the reveal order and the board;
        progress starts over. The countdown value and scores carry over. */
    method Start(drawn: seq<MahjongKatyo>)
      requires !konteAktif && 0 <= tanRestan <= TanKonte
      requires |drawn| == KantiteTotalKatyo(nivo) && DistinctIds(drawn)
      modifies this`eta, this`katyoLis, this`orijinalSekans, this`seleksyonSekans, this`endeks, this`melanjeFwa
      ensures Valid()
      ensures eta == Afichaj && katyoLis == drawn && orijinalSekans == drawn
      ensures seleksyonSekans == [] && endeks == 0 && Verdikt() == Pending(0)
    {
      katyoLis := drawn;
      orijinalSekans := katyoLis;
      seleksyonSekans := [];
      endeks := 0;
      eta := Afichaj;
      melanjeFwa := 0;
    }

    /** `kòmanseKontè`: after the reveal, the countdown starts at 10 and the timer runs. */
    method BeginCountdown()
      requires Valid() && eta == Afichaj
      modifies this`eta, this`tanRestan, this`konteAktif
      ensures Valid()
      ensures eta == Konte && tanRestan == TanKonte && konteAktif
    {
      eta := Konte;
      tanRestan := TanKonte;
      konteAktif := true;
    }

    /** `melanjeKatyo`: the board, and only the board, is replaced by its shuffle. */
    method MelanjeKatyo(melanje: seq<MahjongKatyo>)
      requires multiset(melanje) == multiset(katyoLis)
      modifies this`eta, this`katyoLis, this`melanjeFwa
      ensures eta == Melanje && katyoLis == melanje && melanjeFwa == old(melanjeFwa) + 1
      ensures multiset(katyoLis) == multiset(old(katyoLis))
    {
      eta := Melanje;
      katyoLis := melanje;
      melanjeFwa := melanjeFwa + 1;
    }

    /** `kòmanseJwePhase`: selection starts. */
    method KomanseJwePhase()
      modifies this`eta
      ensures eta == Jwe
    {
      eta := Jwe;
    }

    /** One firing of the countdown timer. The count drops by exactly one; at 5
        the board is shuffled (`melanje` is the shuffle's result, a permutation of
        the board); at 0 the timer is cancelled and selection starts. The reveal
        order never changes, and Valid() keeps the board a permutation of it and
        records that by the time selection starts the board was shuffled once. */
    method Tick(melanje: seq<MahjongKatyo>)
      requires Valid() && konteAktif
      requires tanRestan - 1 == TanMelanje ==> multiset(melanje) == multiset(katyoLis)
      modifies this`eta, this`tanRestan, this`katyoLis, this`konteAktif, this`melanjeFwa
      ensures Valid()
      ensures tanRestan == old(tanRestan) - 1
      ensures katyoLis == (if tanRestan == TanMelanje then melanje else old(katyoLis))
      ensures eta == (if tanRestan == 0 then Jwe else if tanRestan == TanMelanje then Melanje else old(eta))
      ensures konteAktif == (tanRestan > 0)
      ensures Verdikt() == old(Verdikt()) == Pending(0)
    {
      tanRestan := tanRestan - 1;
      if tanRestan == TanMelanje {
        MelanjeKatyo(melanje);
      }
      if tanRestan <= 0 {
        konteAktif := false;
        KomanseJwePhase();
      }
    }

    /** `viewWillDisappear`: the timer is invalidated, in whatever phase. */
    method Teardown()
      requires Valid()
      modifies this`konteAktif
      ensures Valid() && !konteAktif
    {
      konteAktif := false;
    }

    /** `jenereSiyès`: the round is won. The bonus and the streak are read before
        the streak grows; the round is worth 50 plus the bonus; the new running
        total is what is saved. */
    method JenereSiyes()
      modifies this`eta, this`kontreSesyon, this`pwenTotal, this`anrejistreman, this`dennyeDyalog
      ensures eta == Rezilta
      ensures kontreSesyon == old(kontreSesyon) + 1
      ensures pwenTotal == old(pwenTotal) + PwenBaz + kalkileBonus(old(kontreSesyon))
      ensures anrejistreman == Konseve(old(anrejistreman), pwenTotal, nivo)
      ensures dennyeDyalog == DyalogSiyes(MesajSiyes(old(kontreSesyon), kalkileBonus(old(kontreSesyon))),
                                          PwenBaz + kalkileBonus(old(kontreSesyon)))
    {
      eta := Rezilta;
      var kontre := kontreSesyon;
      var pwenBonus := kalkileBonus(kontreSesyon);
      kontreSesyon := kontreSesyon + 1;
      var pwenRound := PwenBaz + pwenBonus;
      pwenTotal := pwenTotal + pwenRound;
      anrejistreman := Konseve(anrejistreman, pwenTotal, nivo);
      dennyeDyalog := DyalogSiyes(MesajSiyes(kontre, pwenBonus), pwenRound);
    }

    /** `jenereEchèk`: the round is lost and the streak starts over. */
    method JenereEchek()
      modifies this`eta, this`kontreSesyon, this`dennyeDyalog
      ensures eta == Rezilta && kontreSesyon == 0 && dennyeDyalog == DyalogEchek(MesajEchek)
    {
      eta := Rezilta;
      kontreSesyon := 0;
      dennyeDyalog := DyalogEchek(MesajEchek);
    }

    /** `katyoTape`: a tap on the cell `tag`. Outside selection it changes nothing.
        During selection the tapped tile is judged against the next tile of the
        reveal order (the round's verdict moves as Step says): a match extends the
        selection by that tile, a last match wins the round, a mismatch loses it. */
    method Tap(tag: nat)
      requires Valid() && tag < KantiteTotalKatyo(nivo)
      modifies this`eta, this`seleksyonSekans, this`endeks, this`kontreSesyon, this`pwenTotal,
               this`anrejistreman, this`dennyeDyalog
      ensures Valid()
      ensures !InteraksyonAktive(old(eta)) ==>
        eta == old(eta) && endeks == old(endeks) && seleksyonSekans == old(seleksyonSekans)
        && kontreSesyon == old(kontreSesyon) && pwenTotal == old(pwenTotal)
        && anrejistreman == old(anrejistreman) && dennyeDyalog == old(dennyeDyalog)
      ensures InteraksyonAktive(old(eta)) ==>
        Verdikt() == Step(orijinalSekans, katyoLis, old(endeks), tag)
      ensures InteraksyonAktive(old(eta)) && Verdikt().Pending? ==>
        eta == Jwe && seleksyonSekans == old(seleksyonSekans) + [katyoLis[tag]]
        && kontreSesyon == old(kontreSesyon) && pwenTotal == old(pwenTotal)
        && anrejistreman == old(anrejistreman) && dennyeDyalog == old(dennyeDyalog)
      ensures InteraksyonAktive(old(eta)) && Verdikt() == Won ==>
        seleksyonSekans == orijinalSekans
        && kontreSesyon == old(kontreSesyon) + 1
        && pwenTotal == old(pwenTotal) + PwenBaz + kalkileBonus(old(kontreSesyon))
        && anrejistreman == Konseve(old(anrejistreman), pwenTotal, nivo)
        && dennyeDyalog == DyalogSiyes(MesajSiyes(old(kontreSesyon), kalkileBonus(old(kontreSesyon))),
                                       PwenBaz + kalkileBonus(old(kontreSesyon)))
      ensures InteraksyonAktive(old(eta)) && Verdikt() == Lost ==>
        endeks == old(endeks) && kontreSesyon == 0 && pwenTotal == old(pwenTotal)
        && anrejistreman == old(anrejistreman) && dennyeDyalog == DyalogEchek(MesajEchek)
    {
      if eta != Jwe {
        return;
      }
      var katyoSeleksyone := katyoLis[tag];
      if endeks < |orijinalSekans| {
        var katyoKorek := orijinalSekans[endeks];
        if Egal(katyoSeleksyone, katyoKorek) {
          assert katyoSeleksyone in multiset(orijinalSekans);
          EgalInDistinctIsSame(orijinalSekans, katyoSeleksyone, endeks);
          assert orijinalSekans[..endeks + 1] == orijinalSekans[..endeks] + [katyoKorek];
          seleksyonSekans := seleksyonSekans + [katyoSeleksyone];
          endeks := endeks + 1;
          if endeks == |orijinalSekans| {
            JenereSiyes();
          }
        } else {
          JenereEchek();
        }
      }
    }
  }

  /** The input lock as the engine's invariant sees it: whenever the grid accepts
      taps, the countdown is over and its timer stopped, the board was shuffled
      exactly once, and a tile of the reveal order is still to be matched. */
  lemma InputOnlyAfterShuffle(e: JweMote)
    requires e.Valid() && InteraksyonAktive(e.eta)
    ensures !e.konteAktif && e.tanRestan == 0 && e.melanjeFwa == 1
    ensures e.endeks < |e.orijinalSekans| && e.Verdikt() == Pending(e.endeks)
  {
  }

  /** The repeating countdown timer: it fires until it cancels itself, which
      always happens, after exactly TanKonte ticks. Selection then starts with
      the board replaced by the shuffle and the reveal order and scores untouched. */
  method RunCountdown(e: JweMote, melanje: seq<MahjongKatyo>) returns (ticks: nat)
    requires e.Valid() && e.eta == Konte && e.konteAktif && e.tanRestan == TanKonte
    requires multiset(melanje) == multiset(e.katyoLis)
    modifies e
    ensures ticks == TanKonte
    ensures e.Valid() && e.eta == Jwe && !e.konteAktif && e.katyoLis == melanje
    ensures e.orijinalSekans == old(e.orijinalSekans) && e.endeks == 0 && e.melanjeFwa == 1
    ensures e.kontreSesyon == old(e.kontreSesyon) && e.pwenTotal == old(e.pwenTotal)
    ensures e.anrejistreman == old(e.anrejistreman) && e.dennyeDyalog == old(e.dennyeDyalog)
  {
    ticks := 0;
    while e.konteAktif
      invariant e.Valid() && ticks + e.tanRestan == TanKonte
      invariant e.orijinalSekans == old(e.orijinalSekans) && e.endeks == 0
      invariant e.tanRestan > TanMelanje ==> e.katyoLis == old(e.katyoLis)
      invariant e.tanRestan <= TanMelanje ==> e.katyoLis == melanje
      invariant !e.konteAktif ==> e.eta == Jwe
      invariant e.kontreSesyon == old(e.kontreSesyon) && e.pwenTotal == old(e.pwenTotal)
      invariant e.anrejistreman == old(e.anrejistreman) && e.dennyeDyalog == old(e.dennyeDyalog)
      decreases e.tanRestan
    {
      e.Tick(melanje);
      ticks := ticks + 1;
    }
  }

  /** A whole round on the easy level, driven as the screen drives it: the board is reversed at the shuffle, and the
      player taps the cells holding the reveal order. With no bonus for a zero
      streak the round is won for 50 points and the streak becomes 1. */
  method ScenarioEasyWin(drawn: seq<MahjongKatyo>, bonus: nat -> nat)
    requires |drawn| == 4 && DistinctIds(drawn) && bonus(0) == 0
  {
    var reversed := Reversed4(drawn);
    var e := ScenarioStart(drawn, bonus);
    var ticks := RunCountdown(e, reversed);
    ScenarioTaps(e, drawn);
    assert ticks == 10;
    assert e.eta == Rezilta && e.Verdikt() == Won;
    assert e.kontreSesyon == 1 && e.pwenTotal == 50;
    assert e.anrejistreman == [AnrejistrePwen(Fasil, 50)];
  }

  method ScenarioStart(drawn: seq<MahjongKatyo>, bonus: nat -> nat) returns (e: JweMote)
    requires |drawn| == 4 && DistinctIds(drawn)
    ensures fresh(e) && e.Valid() && e.eta == Konte && e.konteAktif && e.tanRestan == TanKonte
    ensures e.orijinalSekans == drawn && e.katyoLis == drawn && e.endeks == 0
    ensures e.nivo == Fasil && e.kontreSesyon == 0 && e.kalkileBonus == bonus
    ensures e.pwenTotal == 0 && e.anrejistreman == []
  {
    e := new JweMote(Fasil, bonus, [], 0, drawn);
    e.BeginCountdown();
  }

  /** The player taps the cells of the reversed board in the reveal order and
      wins; with no bonus for the current streak the round is worth 50. */
  method ScenarioTaps(e: JweMote, drawn: seq<MahjongKatyo>)
    requires |drawn| == 4 && e.Valid() && e.eta == Jwe && e.endeks == 0
    requires e.orijinalSekans == drawn && e.katyoLis == [drawn[3], drawn[2], drawn[1], drawn[0]]
    requires e.nivo == Fasil && e.kalkileBonus(e.kontreSesyon) == 0
    modifies e
    ensures e.Valid() && e.eta == Rezilta && e.Verdikt() == Won
    ensures e.kontreSesyon == old(e.kontreSesyon) + 1 && e.pwenTotal == old(e.pwenTotal) + PwenBaz
    ensures e.anrejistreman == Konseve(old(e.anrejistreman), e.pwenTotal, Fasil)
  {
    e.Tap(3);
    e.Tap(2);
    e.Tap(1);
    e.Tap(0);
  }

  /** A further round on the same screen, after a result: a new draw, the
      reveal, the countdown with the board reversed at the shuffle, and the
      four correct taps. */
  method ScenarioNextRound(e: JweMote, drawn: seq<MahjongKatyo>)
    requires e.Valid() && e.eta == Rezilta && e.nivo == Fasil
    requires |drawn| == 4 && DistinctIds(drawn) && e.kalkileBonus(e.kontreSesyon) == 0
    modifies e
    ensures e.Valid() && e.eta == Rezilta && e.Verdikt() == Won
    ensures e.kontreSesyon == old(e.kontreSesyon) + 1 && e.pwenTotal == old(e.pwenTotal) + PwenBaz
    ensures e.anrejistreman == Konseve(old(e.anrejistreman), e.pwenTotal, Fasil)
  {
    var reversed := Reversed4(drawn);
    ScenarioRestart(e, drawn);
    var _ := RunCountdown(e, reversed);
    ScenarioTaps(e, drawn);
  }

  /** The result dialog's completion starts a new round, and the reveal's
      delayed call starts its countdown; streak, total and records carry over. */
  method ScenarioRestart(e: JweMote, drawn: seq<MahjongKatyo>)
    requires e.Valid() && e.eta == Rezilta
    requires |drawn| == KantiteTotalKatyo(e.nivo) && DistinctIds(drawn)
    modifies e
    ensures e.Valid() && e.eta == Konte && e.konteAktif && e.tanRestan == TanKonte
    ensures e.orijinalSekans == drawn && e.katyoLis == drawn && e.endeks == 0
    ensures e.kontreSesyon == old(e.kontreSesyon) && e.pwenTotal == old(e.pwenTotal)
    ensures e.anrejistreman == old(e.anrejistreman)
  {
    e.Start(drawn);
    e.BeginCountdown();
  }

  /** The shuffle used by the scenarios: the board of four is reversed. */
  function Reversed4(drawn: seq<MahjongKatyo>): (r: seq<MahjongKatyo>)
    requires |drawn| == 4
    ensures r == [drawn[3], drawn[2], drawn[1], drawn[0]]
    ensures multiset(r) == multiset(drawn)
  {
    assert drawn == [drawn[0], drawn[1], drawn[2], drawn[3]];
    [drawn[3], drawn[2], drawn[1], drawn[0]]
  }

  /** Two plain wins on the easy level from an empty store, driven through the
      engine, then the screen opened again on the stored records: the screen
      showed 100 after the second win, the reopened screen loads 150. This is
      the save of the running total at JweViewController.swift:419 meeting
      the summing reload of `chajePwenTotal`. */
  method ScenarioReloadAfterTwoWins(drawn: seq<MahjongKatyo>, drawn2: seq<MahjongKatyo>, bonus: nat -> nat)
    returns (naEkran: int, apreChaje: int)
    requires |drawn| == 4 && DistinctIds(drawn) && |drawn2| == 4 && DistinctIds(drawn2)
    requires bonus(0) == 0 && bonus(1) == 0
    ensures naEkran == 100 && apreChaje == 150
  {
    var reversed := Reversed4(drawn);
    var e := ScenarioStart(drawn, bonus);
    var _ := RunCountdown(e, reversed);
    ScenarioTaps(e, drawn);
    ScenarioNextRound(e, drawn2);
    naEkran := e.pwenTotal;
    ReloadAfterTwoWins(Fasil);
    var reouvri := new JweMote(Fasil, bonus, e.anrejistreman, e.kontreSesyon, drawn);
    apreChaje := reouvri.pwenTotal;
  }

  /** A first tap on a tile other than the first of the reveal order loses the
      round at once: the streak is reset and no record is saved. */
  method ScenarioWrongFirstTap(e: JweMote, drawn: seq<MahjongKatyo>)
    requires |drawn| == 4 && e.Valid() && e.eta == Jwe && e.endeks == 0
    requires e.orijinalSekans == drawn && e.katyoLis == [drawn[3], drawn[2], drawn[1], drawn[0]]
    requires e.nivo == Fasil && e.kontreSesyon == 3
    modifies e
  {
    var records := e.anrejistreman;
    var total := e.pwenTotal;
    e.Tap(0);
    assert e.eta == Rezilta && e.Verdikt() == Lost;
    assert e.kontreSesyon == 0 && e.anrejistreman == records && e.pwenTotal == total;
    e.Tap(3);
    assert e.eta == Rezilta && e.kontreSesyon == 0;
  }
}
