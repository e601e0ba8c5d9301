/** The tile and level model of GridMind (MahjongKatyo.swift): the tile kinds,
    the three difficulty levels and their grid shapes, the tile entity with its
    identity-only equality and image-resource name, and the positioned tile
    that carries a selection flag and a visibility flag. */
module Katyo {
  import opened Wrappers
  import Decimal

  // ---------------------------------------------------------------------------
  // Tile kinds (TipKatyo, a String-backed enum)
  // ---------------------------------------------------------------------------

  datatype TipKatyo = Hudy | Koieb | Zounl | Mssiu

  /** The enum's `rawValue`: the case name, a short lower-case word. */
  function RawValue(t: TipKatyo): (r: string)
    ensures 4 <= |r| <= 5
    ensures forall i :: 0 <= i < |r| ==> 'a' <= r[i] <= 'z'
  {
    match t
    case Hudy => "hudy"
    case Koieb => "koieb"
    case Zounl => "zounl"
    case Mssiu => "mssiu"
  }

  /** Swift's failable `TipKatyo(rawValue:)`: it succeeds only on a raw value,
      and then with the kind that has it. */
  function TipFromRawValue(s: string): (r: Option<TipKatyo>)
    ensures r.Some? ==> RawValue(r.value) == s
  {
    if s == "hudy" then Some(Hudy)
    else if s == "koieb" then Some(Koieb)
    else if s == "zounl" then Some(Zounl)
    else if s == "mssiu" then Some(Mssiu)
    else None
  }

  lemma RawValueRoundTrip(t: TipKatyo)
    ensures TipFromRawValue(RawValue(t)) == Some(t)
    ensures '_' !in RawValue(t)
  {
  }

  // ---------------------------------------------------------------------------
  // Difficulty levels (NivoJwe) and their descriptors
  // ---------------------------------------------------------------------------

  datatype NivoJwe = Fasil | Mwayen | Difisil

  /** A level descriptor: display name and the fixed grid structure (x columns, y rows). */
  datatype Deskripte = Deskripte(non: string, x: int, y: int) {
    /** `jwenn_dimansyon`: (width, height) of the grid. */
    function Dimansyon(): (int, int) {
      (x, y)
    }

    /** `jwenn_total`: the number of cells of the grid. */
    function Total(): int {
      x * y
    }
  }

  /** The descriptor registry `fabrike_deskriptè`: every level has a named grid
      of two or three columns and two or three rows, never taller than wide. */
  function DeskripteOf(n: NivoJwe): (d: Deskripte)
    ensures d.non != ""
    ensures 2 <= d.y <= d.x <= 3
  {
    match n
    case Fasil => Deskripte("Easy", 2, 2)
    case Mwayen => Deskripte("Medium", 3, 2)
    case Difisil => Deskripte("Hard", 3, 3)
  }

  /** `nonAfiche`: the level's display name; distinct levels have distinct names. */
  function NonAfiche(n: NivoJwe): (r: string)
    ensures r != ""
    ensures forall m: NivoJwe :: m != n ==> DeskripteOf(m).non != r
  {
    DeskripteOf(n).non
  }

  /** `kantiteKolòn`: the grid's width. */
  function KantiteKolon(n: NivoJwe): (r: int)
    ensures 2 <= r <= 3
    ensures r == DeskripteOf(n).x
  {
    DeskripteOf(n).Dimansyon().0
  }

  /** `kantiteRanje`: the grid's height, never more than its width. */
  function KantiteRanje(n: NivoJwe): (r: int)
    ensures 2 <= r <= KantiteKolon(n)
  {
    DeskripteOf(n).Dimansyon().1
  }

  /** The number of tiles a round of this level draws; at most 9, so the
      33-tile deck always covers it. */
  function KantiteTotalKatyo(n: NivoJwe): (r: int)
    ensures 4 <= r <= 9
  {
    DeskripteOf(n).Total()
  }

  /** Every level's tile count is its number of columns times its number of rows. */
  lemma TotalIsColumnsTimesRows(n: NivoJwe)
    ensures KantiteTotalKatyo(n) == KantiteKolon(n) * KantiteRanje(n)
    ensures KantiteKolon(n) > 0 && KantiteRanje(n) > 0
  {
  }

  /** The fixed grid shapes: easy 2x2, medium 3x2, hard 3x3. */
  lemma FixedShapes()
    ensures KantiteKolon(Fasil) == 2 && KantiteRanje(Fasil) == 2 && KantiteTotalKatyo(Fasil) == 4
    ensures KantiteKolon(Mwayen) == 3 && KantiteRanje(Mwayen) == 2 && KantiteTotalKatyo(Mwayen) == 6
    ensures KantiteKolon(Difisil) == 3 && KantiteRanje(Difisil) == 3 && KantiteTotalKatyo(Difisil) == 9
    ensures NonAfiche(Fasil) == "Easy" && NonAfiche(Mwayen) == "Medium" && NonAfiche(Difisil) == "Hard"
  {
  }

  // ---------------------------------------------------------------------------
  // The tile entity (MahjongKatyo)
  // ---------------------------------------------------------------------------

  /** An identifier is an opaque token; the source builds it from the clock and a random number. */
  type Idantifikasyon = string

  datatype MahjongKatyo = MahjongKatyo(idantifikasyon: Idantifikasyon, tip: TipKatyo, vale: int)

  /** `init(tip:valè:)`, with the freshly generated identifier passed in. */
  function NewKatyo(id: Idantifikasyon, tip: TipKatyo, vale: int): (k: MahjongKatyo)
    ensures k.tip == tip && k.vale == vale && k.idantifikasyon == id
  {
    MahjongKatyo(id, tip, vale)
  }

  /** The Equatable `==`: identity only. Two tiles are equal exactly when they
      would be the same value once their faces were made alike. */
  predicate Egal(a: MahjongKatyo, b: MahjongKatyo): (r: bool)
    ensures r <==> a.(tip := b.tip, vale := b.vale) == b
  {
    a.idantifikasyon == b.idantifikasyon
  }

  /** Kind and value play no part in equality: two tiles with the same face but
      different identifiers differ, and two tiles with the same identifier are
      equal whatever their faces. */
  lemma EgalIgnoresFace(a: MahjongKatyo, b: MahjongKatyo)
    ensures a.tip == b.tip && a.vale == b.vale && a.idantifikasyon != b.idantifikasyon ==> !Egal(a, b)
    ensures a.idantifikasyon == b.idantifikasyon ==> Egal(a, b)
  {
  }

  /** `==` is an equivalence relation. */
  lemma EgalIsEquivalence(a: MahjongKatyo, b: MahjongKatyo, c: MahjongKatyo)
    ensures Egal(a, a)
    ensures Egal(a, b) ==> Egal(b, a)
    ensures Egal(a, b) && Egal(b, c) ==> Egal(a, c)
  {
  }

  /** `nonImaj`: the raw value of the kind and the decimal value, joined by "_".
      The separator occurs exactly once, right after the kind's name. */
  function NonImaj(k: MahjongKatyo): (r: string)
    ensures |r| > |RawValue(k.tip)| + 1
    ensures r[|RawValue(k.tip)|] == '_'
    ensures forall i :: 0 <= i < |r| && i != |RawValue(k.tip)| ==> r[i] != '_'
  {
    RawValue(k.tip) + "_" + Decimal.IntToDecimal(k.vale)
  }

  /** Splits a string at the first occurrence of `sep`. */
  function SplitAtFirst(s: string, sep: char): Option<(string, string)> {
    if s == [] then None
    else if s[0] == sep then Some(([], s[1..]))
    else match SplitAtFirst(s[1..], sep)
      case None => None
      case Some(p) => Some(([s[0]] + p.0, p.1))
  }

  lemma {:induction false} SplitAtFirstJoin(a: string, b: string, sep: char)
    requires sep !in a
    ensures SplitAtFirst(a + [sep] + b, sep) == Some((a, b))
  {
    if a != [] {
      var s := a + [sep] + b;
      assert s[0] == a[0] != sep;
      assert s[1..] == a[1..] + [sep] + b;
      SplitAtFirstJoin(a[1..], b, sep);
      assert [a[0]] + a[1..] == a;
    }
  }

  /** Reads the kind and value back out of an image name. */
  function ParseNonImaj(s: string): Option<(TipKatyo, int)> {
    match SplitAtFirst(s, '_')
    case None => None
    case Some(p) =>
      match (TipFromRawValue(p.0), Decimal.ParseInt(p.1))
      case (Some(t), Some(v)) => Some((t, v))
      case _ => None
  }

  /** The image name determines the kind and the value of the tile. */
  lemma NonImajRoundTrip(k: MahjongKatyo)
    ensures ParseNonImaj(NonImaj(k)) == Some((k.tip, k.vale))
  {
    RawValueRoundTrip(k.tip);
    SplitAtFirstJoin(RawValue(k.tip), Decimal.IntToDecimal(k.vale), '_');
    assert NonImaj(k) == RawValue(k.tip) + ['_'] + Decimal.IntToDecimal(k.vale);
    Decimal.DecimalRoundTrip(k.vale);
  }

  /** Two tiles share an image exactly when they share kind and value; the identifier plays no part. */
  lemma NonImajSameIffSameFace(a: MahjongKatyo, b: MahjongKatyo)
    ensures NonImaj(a) == NonImaj(b) <==> a.tip == b.tip && a.vale == b.vale
  {
    NonImajRoundTrip(a);
    NonImajRoundTrip(b);
  }

  lemma NonImajExample(id: Idantifikasyon)
    ensures NonImaj(NewKatyo(id, Hudy, 3)) == "hudy_3"
    ensures NonImaj(NewKatyo(id, Mssiu, 6)) == "mssiu_6"
  {
  }

  // ---------------------------------------------------------------------------
  // A tile at a board position (KatyoAvèkPozisyon)
  // ---------------------------------------------------------------------------

  class KatyoAvekPozisyon {
    const katyo: MahjongKatyo
    const endeks: int
    var etaSeleksyon: bool
    var etaVizibilite: bool

    /** The `chwazi` getter; its setter is `DefiniChwazi`. */
    function Chwazi(): (r: bool)
      reads this
      ensures r <==> etaSeleksyon
    {
      etaSeleksyon
    }

    /** The `afiche` getter; its setter is `DefiniAfiche`. */
    function Afiche(): (r: bool)
      reads this
      ensures r <==> etaVizibilite
    {
      etaVizibilite
    }

    /** A new positioned tile is neither selected nor shown. */
    constructor (katyo: MahjongKatyo, endeks: int)
      ensures this.katyo == katyo && this.endeks == endeks
      ensures !Chwazi() && !Afiche()
    {
      this.katyo := katyo;
      this.endeks := endeks;
      etaSeleksyon := false;
      etaVizibilite := false;
    }

    /** Flips the selection flag and nothing else. */
    method BaskileChouazi()
      modifies this`etaSeleksyon
      ensures Chwazi() == !old(Chwazi()) && Afiche() == old(Afiche())
    {
      etaSeleksyon := !etaSeleksyon;
    }

    /** Flips the visibility flag and nothing else. */
    method BaskilaAfiche()
      modifies this`etaVizibilite
      ensures Afiche() == !old(Afiche()) && Chwazi() == old(Chwazi())
    {
      etaVizibilite := !etaVizibilite;
    }

    /** Sets the selection flag (also what the `chwazi` setter does). */
    method DefiniChwazi(nouvoEta: bool)
      modifies this`etaSeleksyon
      ensures Chwazi() == nouvoEta && Afiche() == old(Afiche())
    {
      etaSeleksyon := nouvoEta;
    }

    /** Sets the visibility flag (also what the `afiche` setter does). */
    method DefiniAfiche(nouvoEta: bool)
      modifies this`etaVizibilite
      ensures Afiche() == nouvoEta && Chwazi() == old(Chwazi())
    {
      etaVizibilite := nouvoEta;
    }

    /** Clears both flags, whatever they were. */
    method Reyinisyalize()
      modifies this`etaSeleksyon, this`etaVizibilite
      ensures !Chwazi() && !Afiche()
    {
      etaSeleksyon := false;
      etaVizibilite := false;
    }
  }

  /** What a caller can rely on: toggling twice restores a flag, the two flags
      are independent, and the tile and its position never change. */
  method FlagScenario(k: MahjongKatyo, i: int, b: bool)
  {
    var p := new KatyoAvekPozisyon(k, i);
    p.DefiniAfiche(b);
    p.BaskileChouazi();
    assert p.Chwazi() && p.Afiche() == b;
    p.BaskileChouazi();
    assert !p.Chwazi() && p.Afiche() == b;
    p.BaskilaAfiche();
    p.BaskilaAfiche();
    assert p.Afiche() == b;
    p.Reyinisyalize();
    assert !p.Chwazi() && !p.Afiche() && p.katyo == k && p.endeks == i;
  }
}
