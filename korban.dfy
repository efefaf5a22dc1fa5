/**
 * The casualty tally of a disaster record: deaths and injuries, each split by sex, and the
 * two accumulators that add to them. The class `Bencana.Bencana` keeps these four numbers
 * in its fields; this module states what one accumulator call, and a run of them, does.
 */
module Korban {
  import opened Wrappers
  import opened Text

  /** How an accumulator reads its sex tag: by its lower-cased form. */
  datatype JenisKelamin = LakiLaki | Perempuan | TidakDikenal

  function Kelamin(tag: string): JenisKelamin {
    var t := Lower(tag);
    if t == "laki-laki" then LakiLaki else if t == "perempuan" then Perempuan else TidakDikenal
  }

  /** The tag is matched without regard to case: "Laki-laki", "LAKI-LAKI", "Perempuan" all count. */
  lemma KelaminTanpaHurufBesar()
    ensures Kelamin("Laki-laki") == LakiLaki && Kelamin("LAKI-LAKI") == LakiLaki
    ensures Kelamin("Perempuan") == Perempuan && Kelamin("PEREMPUAN") == Perempuan
    ensures Kelamin("Pria") == TidakDikenal && Kelamin("laki laki") == TidakDikenal
  {
    assert Lower("Pria")[0] == 'p';
    assert Lower("Perempuan")[0] == 'p' && Lower("PEREMPUAN")[0] == 'p';
    assert Lower("laki laki")[4] == ' ';
  }

  /** The four counters. */
  datatype Korban = Korban(meninggalLaki: int, meninggalPerempuan: int, terlukaLaki: int, terlukaPerempuan: int)

  const Nol := Korban(0, 0, 0, 0)

  /** Names one of the four counters. */
  datatype Pencacah = MeninggalLaki | MeninggalPerempuan | TerlukaLaki | TerlukaPerempuan

  function Nilai(k: Korban, c: Pencacah): int {
    match c
    case MeninggalLaki => k.meninggalLaki
    case MeninggalPerempuan => k.meninggalPerempuan
    case TerlukaLaki => k.terlukaLaki
    case TerlukaPerempuan => k.terlukaPerempuan
  }

  /** `total_korban()`: the sum of the four counters. */
  function Total(k: Korban): int {
    k.meninggalLaki + k.meninggalPerempuan + k.terlukaLaki + k.terlukaPerempuan
  }

  /** One accumulator call: `tambah_korban_meninggal` or `tambah_korban_terluka` with its arguments. */
  datatype Panggilan = Meninggal(jumlah: int, jenisKelamin: string) | Terluka(jumlah: int, jenisKelamin: string)

  /** The counter a call adds to, or `None` when its tag is not recognised. */
  function Sasaran(p: Panggilan): (c: Option<Pencacah>)
    ensures c.None? <==> Kelamin(p.jenisKelamin) == TidakDikenal
  {
    match (p, Kelamin(p.jenisKelamin))
    case (Meninggal(_, _), LakiLaki) => Some(MeninggalLaki)
    case (Meninggal(_, _), Perempuan) => Some(MeninggalPerempuan)
    case (Terluka(_, _), LakiLaki) => Some(TerlukaLaki)
    case (Terluka(_, _), Perempuan) => Some(TerlukaPerempuan)
    case (_, TidakDikenal) => None
  }

  predicate Dikenali(p: Panggilan) {
    Sasaran(p).Some?
  }

  /**
   * The effect of one accumulator call: the counter the tag picks grows by `jumlah`, the
   * other three keep their values, and an unrecognised tag changes nothing.
   */
  function Tambah(k: Korban, p: Panggilan): (r: Korban)
    ensures forall c :: Nilai(r, c) == Nilai(k, c) + (if Sasaran(p) == Some(c) then p.jumlah else 0)
    ensures !Dikenali(p) ==> r == k
    ensures Total(r) == Total(k) + (if Dikenali(p) then p.jumlah else 0)
  {
    match Sasaran(p)
    case Some(MeninggalLaki) => k.(meninggalLaki := k.meninggalLaki + p.jumlah)
    case Some(MeninggalPerempuan) => k.(meninggalPerempuan := k.meninggalPerempuan + p.jumlah)
    case Some(TerlukaLaki) => k.(terlukaLaki := k.terlukaLaki + p.jumlah)
    case Some(TerlukaPerempuan) => k.(terlukaPerempuan := k.terlukaPerempuan + p.jumlah)
    case None => k
  }

  /** A run of accumulator calls, in order. */
  function Jalankan(k: Korban, ps: seq<Panggilan>): Korban
    decreases |ps|
  {
    if ps == [] then k else Jalankan(Tambah(k, ps[0]), ps[1..])
  }

  /**
   * The casualties of the usage example, 5 + 5 deaths and 12 + 8 injuries under a male
   * and a female tag, land in the four counters.
   */
  lemma JalankanContoh(k: Korban, laki: string, perempuan: string)
    requires Kelamin(laki) == LakiLaki && Kelamin(perempuan) == Perempuan
    ensures Jalankan(k, [Meninggal(5, laki), Meninggal(5, perempuan), Terluka(12, laki), Terluka(8, perempuan)])
         == Korban(k.meninggalLaki + 5, k.meninggalPerempuan + 5, k.terlukaLaki + 12, k.terlukaPerempuan + 8)
  {
    var ps := [Meninggal(5, laki), Meninggal(5, perempuan), Terluka(12, laki), Terluka(8, perempuan)];
    var k1 := k.(meninggalLaki := k.meninggalLaki + 5);
    var k2 := k1.(meninggalPerempuan := k1.meninggalPerempuan + 5);
    var k3 := k2.(terlukaLaki := k2.terlukaLaki + 12);
    assert Tambah(k, ps[0]) == k1;
    assert Tambah(k1, ps[1]) == k2;
    assert Tambah(k2, ps[2]) == k3;
    assert Jalankan(k3, ps[3..]) == Tambah(k3, ps[3]) == k3.(terlukaPerempuan := k3.terlukaPerempuan + 8);
    assert Jalankan(k2, ps[2..]) == Jalankan(k3, ps[3..]) by { assert ps[2..][1..] == ps[3..]; }
    assert Jalankan(k1, ps[1..]) == Jalankan(k2, ps[2..]) by { assert ps[1..][1..] == ps[2..]; }
    assert Jalankan(k, ps) == Jalankan(k1, ps[1..]);
  }

  /** The sum of the amounts of the calls whose tag is recognised. */
  function JumlahDikenali(ps: seq<Panggilan>): int
    decreases |ps|
  {
    if ps == [] then 0 else (if Dikenali(ps[0]) then ps[0].jumlah else 0) + JumlahDikenali(ps[1..])
  }

  /** The sum of all the amounts. */
  function Jumlah(ps: seq<Panggilan>): int
    decreases |ps|
  {
    if ps == [] then 0 else ps[0].jumlah + Jumlah(ps[1..])
  }

  /** After a run of calls the total has grown by the amounts of the recognised calls. */
  lemma {:induction false} JalankanTotal(k: Korban, ps: seq<Panggilan>)
    ensures Total(Jalankan(k, ps)) == Total(k) + JumlahDikenali(ps)
    decreases |ps|
  {
    if ps != [] {
      JalankanTotal(Tambah(k, ps[0]), ps[1..]);
    }
  }

  /**
   * Calls with recognised tags raise the total by exactly the sum of their amounts; from a
   * fresh record (`Nol`, total 0) the total is that sum.
   */
  lemma {:induction false} JalankanDikenali(k: Korban, ps: seq<Panggilan>)
    requires forall i :: 0 <= i < |ps| ==> Dikenali(ps[i])
    ensures Total(Jalankan(k, ps)) == Total(k) + Jumlah(ps)
  {
    JalankanTotal(k, ps);
    JumlahSemuaDikenali(ps);
  }

  lemma {:induction false} JumlahSemuaDikenali(ps: seq<Panggilan>)
    requires forall i :: 0 <= i < |ps| ==> Dikenali(ps[i])
    ensures JumlahDikenali(ps) == Jumlah(ps)
    decreases |ps|
  {
    if ps != [] {
      assert Dikenali(ps[0]);
      JumlahSemuaDikenali(ps[1..]);
    }
  }

  /** With non-negative amounts no counter ever decreases, whatever the tags. */
  lemma {:induction false} JalankanMonoton(k: Korban, ps: seq<Panggilan>, c: Pencacah)
    requires forall i :: 0 <= i < |ps| ==> ps[i].jumlah >= 0
    ensures Nilai(Jalankan(k, ps), c) >= Nilai(k, c)
    decreases |ps|
  {
    if ps != [] {
      JalankanMonoton(Tambah(k, ps[0]), ps[1..], c);
    }
  }

  /** Calls whose tags are all unrecognised leave the tally exactly as it was. */
  lemma {:induction false} JalankanTidakDikenali(k: Korban, ps: seq<Panggilan>)
    requires forall i :: 0 <= i < |ps| ==> !Dikenali(ps[i])
    ensures Jalankan(k, ps) == k
    decreases |ps|
  {
    if ps != [] {
      assert !Dikenali(ps[0]);
      JalankanTidakDikenali(k, ps[1..]);
    }
  }

  /** Two calls may be made in either order. */
  lemma TambahTukar(k: Korban, p: Panggilan, q: Panggilan)
    ensures Tambah(Tambah(k, p), q) == Tambah(Tambah(k, q), p)
  {
    var a := Tambah(Tambah(k, p), q);
    var b := Tambah(Tambah(k, q), p);
    assert forall c :: Nilai(a, c) == Nilai(b, c);
    assert Nilai(a, MeninggalLaki) == Nilai(b, MeninggalLaki);
    assert Nilai(a, MeninggalPerempuan) == Nilai(b, MeninggalPerempuan);
    assert Nilai(a, TerlukaLaki) == Nilai(b, TerlukaLaki);
    assert Nilai(a, TerlukaPerempuan) == Nilai(b, TerlukaPerempuan);
  }

  /** Moving one call to the front of a run does not change the outcome. */
  lemma {:induction false} JalankanPindah(k: Korban, a: seq<Panggilan>, x: Panggilan, b: seq<Panggilan>)
    ensures Jalankan(k, a + [x] + b) == Jalankan(Tambah(k, x), a + b)
    decreases |a|
  {
    if a == [] {
      assert a + [x] + b == [x] + b;
      assert ([x] + b)[0] == x && ([x] + b)[1..] == b;
      assert a + b == b;
    } else {
      assert (a + [x] + b)[1..] == a[1..] + [x] + b;
      assert (a + b)[1..] == a[1..] + b;
      JalankanPindah(Tambah(k, a[0]), a[1..], x, b);
      TambahTukar(k, a[0], x);
    }
  }

  /** The outcome of a run depends only on which calls were made, not on their order. */
  lemma {:induction false} JalankanPermutasi(k: Korban, ps: seq<Panggilan>, qs: seq<Panggilan>)
    requires multiset(ps) == multiset(qs)
    ensures Jalankan(k, ps) == Jalankan(k, qs)
    decreases |ps|
  {
    if ps != [] {
      var x := ps[0];
      var a, b := PisahPada(ps, qs);
      JalankanPindah(k, a, x, b);
      JalankanPermutasi(Tambah(k, x), ps[1..], a + b);
    } else {
      assert |qs| == |multiset(qs)| == 0;
    }
  }

  /** Finds the first element of `ps` in its permutation `qs` and splits `qs` around it. */
  lemma PisahPada<T>(ps: seq<T>, qs: seq<T>) returns (a: seq<T>, b: seq<T>)
    requires ps != [] && multiset(ps) == multiset(qs)
    ensures qs == a + [ps[0]] + b
    ensures multiset(ps[1..]) == multiset(a + b)
  {
    var x := ps[0];
    assert ps == [x] + ps[1..];
    assert x in multiset(qs);
    assert x in qs;
    var i :| 0 <= i < |qs| && qs[i] == x;
    a, b := qs[..i], qs[i + 1..];
    assert qs == a + [x] + b;
    calc {
      multiset(ps[1..]);
      multiset(ps) - multiset{x};
      multiset(qs) - multiset{x};
      multiset(a) + multiset{x} + multiset(b) - multiset{x};
      multiset(a + b);
    }
  }
}
