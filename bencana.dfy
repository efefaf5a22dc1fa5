/**
 * The disaster record `Bencana` and its two subclasses, `BantuanKorban` (an aid shipment)
 * and `Posko` (a field station). The three Python classes become one Dafny class whose
 * constant `kelas` says which of them an object was built as; the one method a subclass
 * overrides, `tambah_korban`, dispatches on it.
 */
module Bencana {
  import opened Wrappers
  import opened Text
  import opened Numeral
  import opened OrderedDict
  import K = Korban

  /** A moment as the clock reports it; the model never looks inside. */
  datatype Waktu = Waktu(detik: int)

  /**
   * The values a snapshot dictionary holds: text, integers, the `strftime` text of a moment
   * (`Stempel`), and a float with two decimals, held as a whole number of hundredths (`Desimal`).
   */
  datatype NilaiInfo = Teks(teks: string) | Bilangan(bilangan: int) | Stempel(waktu: Waktu) | Desimal(perseratus: int)

  /** Which of the three Python classes an object was built as, with the subclass's own fields. */
  datatype Kelas = KelasBencana | KelasBantuanKorban(jenis: string, jumlah: int) | KelasPosko(namaPosko: string)

  /** The name and location both subclasses hand to the base constructor. */
  const Placeholder := "Default"

  /** The keys of `info_bencana()`, in insertion order. */
  const KunciInfo: seq<string> := [
    "Nama", "Lokasi", "Tanggal",
    "Korban Meninggal Laki-laki", "Korban Meninggal Perempuan",
    "Korban Terluka Laki-laki", "Korban Terluka Perempuan",
    "Kerusakan"
  ]

  /** The columns of the exported row, in order. */
  const KolomEkspor: seq<string> := [
    "Nama", "Lokasi", "Tanggal",
    "Korban Meninggal Laki-laki", "Korban Meninggal Perempuan",
    "Korban Terluka Laki-laki", "Korban Terluka Perempuan",
    "Persentase Kerusakan"
  ]

  lemma KunciInfoDistinct()
    ensures Distinct(KunciInfo)
  {
  }

  /**
   * What `persentase_kerusakan()` reports: the percentage `panjang / total * 100` as the
   * exact ratio of its two integers, or the fixed no-information text.
   */
  datatype Ringkasan = Persentase(panjang: nat, total: nat) | TidakAdaInformasi {
    /** The percentage itself, before it is rounded to two decimals for printing. */
    function Persen(): (p: real)
      requires Persentase? && total > 0
      ensures p * (total as real) == (panjang as real) * 100.0
    {
      (panjang as real * 100.0) / total as real
    }
  }

  const TidakAdaInformasiTeks := "Tidak ada informasi kerusakan."
  const TidakAdaKorbanTeks := "Tidak ada korban. Kerusakan harus segera diperbaiki."
  /** The one line `tanggapan_pemerintah()` prints; it reads and changes nothing. */
  const TanggapanPemerintahTeks := "Pemerintah setempat langsung memberikan bantuan kepada para korban bencana."

  /** The damage descriptor `info_kerusakan` stores for a percentage given in hundredths. */
  function Deskripsi(perseratus: int): string {
    FormatCenti(perseratus) + "%" + EkorDeskripsi
  }

  const EkorDeskripsi := " kerusakan pada wilayah bencana.  Detail kerusakan belum diketahui"

  /** The descriptor for the last recorded percentage, or "" when none was recorded. */
  function DeskripsiTercatat(tercatat: Option<int>): string {
    match tercatat
    case None => ""
    case Some(c) => Deskripsi(c)
  }

  // ----- tambah_korban -----

  /** The line `tambah_korban` prints, labelled with the class it is defined in. */
  function PesanKorban(namaKelas: string, jumlah: int, jenisKelamin: string, jenisKecelakaan: Option<string>): (pesan: string)
    ensures StartsWith(pesan, "Tambahan korban dari kelas " + namaKelas + ": ")
  {
    var dasar := "Tambahan korban dari kelas " + namaKelas + ": " + IntStr(jumlah) + " " + jenisKelamin;
    assert dasar[..27 + |namaKelas| + 2] == "Tambahan korban dari kelas " + namaKelas + ": ";
    match jenisKecelakaan
    case Some(k) => dasar + " pada kecelakaan " + k
    case None => dasar
  }

  /**
   * The incident type is in the message exactly when one is given: the message with it is
   * the message without it followed by " pada kecelakaan " and the type, and the two differ.
   */
  lemma PesanKorbanKecelakaan(namaKelas: string, jumlah: int, jenisKelamin: string, k: string)
    ensures PesanKorban(namaKelas, jumlah, jenisKelamin, Some(k))
         == PesanKorban(namaKelas, jumlah, jenisKelamin, None) + " pada kecelakaan " + k
    ensures PesanKorban(namaKelas, jumlah, jenisKelamin, Some(k)) != PesanKorban(namaKelas, jumlah, jenisKelamin, None)
  {
    assert |PesanKorban(namaKelas, jumlah, jenisKelamin, Some(k))| > |PesanKorban(namaKelas, jumlah, jenisKelamin, None)|;
  }

  /** For the same arguments, the `Bencana` and the `Posko` message differ. */
  lemma PesanKorbanKelasBerbeda(jumlah: int, jenisKelamin: string, jenisKecelakaan: Option<string>)
    ensures PesanKorban("Bencana", jumlah, jenisKelamin, jenisKecelakaan) != PesanKorban("Posko", jumlah, jenisKelamin, jenisKecelakaan)
  {
    var b := PesanKorban("Bencana", jumlah, jenisKelamin, jenisKecelakaan);
    var p := PesanKorban("Posko", jumlah, jenisKelamin, jenisKecelakaan);
    assert b[..36][27] == 'B';
    assert p[..34][27] == 'P';
  }

  // ----- ubah_nama_bencana -----

  /** The line that ends the renaming loop, in any case. */
  predicate Selesai(baris: string) {
    Lower(baris) == "selesai"
  }

  /** The position of the first sentinel line, or the number of lines when there is none. */
  function IndeksSelesai(masukan: seq<string>): (k: nat)
    ensures k <= |masukan|
    ensures forall i :: 0 <= i < k ==> !Selesai(masukan[i])
    ensures k < |masukan| ==> Selesai(masukan[k])
    decreases |masukan|
  {
    if masukan == [] then 0
    else if Selesai(masukan[0]) then 0
    else 1 + IndeksSelesai(masukan[1..])
  }

  /** The name after the loop has read `masukan`: the last line before the sentinel, if any. */
  function NamaSetelah(nama: string, masukan: seq<string>): string {
    var k := IndeksSelesai(masukan);
    if k == 0 then nama else masukan[k - 1]
  }

  /** The confirmation printed for each accepted line. */
  function PesanUbahNama(baris: string): string {
    "Nama bencana berhasil diubah menjadi '" + baris + "'."
  }

  /**
   * The loop one line at a time: a sentinel stops it with the name unchanged; any other
   * line becomes the name at once and the loop goes on with the rest.
   */
  lemma {:induction false} NamaSetelahLangkah(nama: string, baris: string, sisa: seq<string>)
    ensures NamaSetelah(nama, [baris] + sisa) == if Selesai(baris) then nama else NamaSetelah(baris, sisa)
  {
    var m := [baris] + sisa;
    assert m[0] == baris && m[1..] == sisa;
    if !Selesai(baris) {
      assert IndeksSelesai(m) == 1 + IndeksSelesai(sisa);
      if IndeksSelesai(sisa) > 0 {
        assert m[IndeksSelesai(m) - 1] == sisa[IndeksSelesai(sisa) - 1];
      }
    }
  }

  /** Lines after the sentinel are never read. */
  lemma {:induction false} NamaSetelahAbaikanSisa(nama: string, masukan: seq<string>, sisa: seq<string>)
    requires IndeksSelesai(masukan) < |masukan|
    ensures IndeksSelesai(masukan + sisa) == IndeksSelesai(masukan)
    ensures NamaSetelah(nama, masukan + sisa) == NamaSetelah(nama, masukan)
  {
    var k := IndeksSelesai(masukan);
    var k' := IndeksSelesai(masukan + sisa);
    assert forall i :: 0 <= i <= k ==> (masukan + sisa)[i] == masukan[i];
    if k > 0 {
      assert (masukan + sisa)[k - 1] == masukan[k - 1];
    }
  }

  /** The final name is the old one or a line that is not the sentinel. */
  lemma NamaSetelahBukanSelesai(nama: string, masukan: seq<string>)
    ensures NamaSetelah(nama, masukan) == nama
         || (NamaSetelah(nama, masukan) in masukan && !Selesai(NamaSetelah(nama, masukan)))
  {
  }

  // ----- buat_posko -----

  /** The closing words of the `buat_posko` announcement, after the location. */
  const EkorPosko := " untuk koordinasi dan penanganan."

  /** The line `buat_posko` prints for a station name and location. */
  function PesanPosko(nama: string, lokasi: string): (pesan: string)
    ensures StartsWith(pesan, "Posko bencana " + nama + " telah didirikan di ")
    ensures EndsWith(pesan, lokasi + EkorPosko)
    ensures |pesan| == |"Posko bencana " + nama + " telah didirikan di "| + |lokasi + EkorPosko|
  {
    var depan := "Posko bencana " + nama + " telah didirikan di ";
    var pesan := depan + (lokasi + EkorPosko);
    assert pesan[..|depan|] == depan;
    assert pesan[|depan|..] == lokasi + EkorPosko;
    pesan
  }

  /** Messages for one station name carry the location: different locations give different messages. */
  lemma PesanPoskoLokasiMembedakan(nama: string, lokasi1: string, lokasi2: string)
    requires lokasi1 != lokasi2
    ensures PesanPosko(nama, lokasi1) != PesanPosko(nama, lokasi2)
  {
    var m1, m2 := PesanPosko(nama, lokasi1), PesanPosko(nama, lokasi2);
    if |lokasi1| == |lokasi2| {
      var n := |m1| - |lokasi1 + EkorPosko|;
      assert m1[n..n + |lokasi1|] == lokasi1;
      assert m2[n..n + |lokasi2|] == lokasi2;
    } else {
      assert |m1| != |m2|;
    }
  }

  /** Messages for one location name the station: different names give different messages. */
  lemma PesanPoskoMembedakan(nama1: string, nama2: string, lokasi: string)
    requires nama1 != nama2
    ensures PesanPosko(nama1, lokasi) != PesanPosko(nama2, lokasi)
  {
    var m1, m2 := PesanPosko(nama1, lokasi), PesanPosko(nama2, lokasi);
    if |nama1| == |nama2| {
      assert m1[14..14 + |nama1|] == nama1;
      assert m2[14..14 + |nama2|] == nama2;
    } else {
      assert |m1| != |m2|;
    }
  }

  class Bencana {
    /** The record's private name (`_Bencana__nama`). */
    var nama: string
    /** The location (`_lokasi`), which `Posko` overwrites. */
    var lokasi: string
    /** The creation moment; the constructor's `tanggal` argument is ignored. */
    const tanggal: Waktu
    const kelas: Kelas
    var meninggalLaki: int
    var meninggalPerempuan: int
    var terlukaLaki: int
    var terlukaPerempuan: int
    /** The damage descriptor (`kerusakan`), "" until `info_kerusakan` is called. */
    var kerusakan: string
    /** The percentage (in hundredths) the descriptor was last written from. */
    ghost var persenTercatat: Option<int>

    /** The descriptor is empty or the rendering of the last recorded percentage. */
    ghost predicate Valid()
      reads this
    {
      kerusakan == DeskripsiTercatat(persenTercatat)
    }

    /** The four counters as one value. */
    function Tally(): K.Korban
      reads this
    {
      K.Korban(meninggalLaki, meninggalPerempuan, terlukaLaki, terlukaPerempuan)
    }

    /** `Bencana(nama, lokasi, tanggal)`, stamped with the clock reading `sekarang`. */
    constructor (nama: string, lokasi: string, tanggal: string, sekarang: Waktu)
      ensures this.nama == nama && this.lokasi == lokasi && this.tanggal == sekarang
      ensures kelas == KelasBencana
      ensures Tally() == K.Nol && kerusakan == "" && persenTercatat == None && Valid()
    {
      this.nama := nama;
      this.lokasi := lokasi;
      this.tanggal := sekarang;
      kelas := KelasBencana;
      meninggalLaki, meninggalPerempuan, terlukaLaki, terlukaPerempuan := 0, 0, 0, 0;
      kerusakan := "";
      persenTercatat := None;
    }

    /** `BantuanKorban(jenis, jumlah)`: placeholder identity, the aid type and quantity of its own. */
    constructor Bantuan(jenis: string, jumlah: int, sekarang: Waktu)
      ensures nama == Placeholder && lokasi == Placeholder && tanggal == sekarang
      ensures kelas == KelasBantuanKorban(jenis, jumlah)
      ensures Tally() == K.Nol && kerusakan == "" && persenTercatat == None && Valid()
    {
      nama, lokasi, tanggal := Placeholder, Placeholder, sekarang;
      kelas := KelasBantuanKorban(jenis, jumlah);
      meninggalLaki, meninggalPerempuan, terlukaLaki, terlukaPerempuan := 0, 0, 0, 0;
      kerusakan := "";
      persenTercatat := None;
    }

    /**
     * `Posko(nama, lokasi)`: the station keeps its name in a field of its own (`_Posko__nama`),
     * so the inherited name stays the placeholder; the location replaces the inherited one.
     */
    constructor Posko(nama: string, lokasi: string, sekarang: Waktu)
      ensures this.nama == Placeholder && this.lokasi == lokasi && tanggal == sekarang
      ensures kelas == KelasPosko(nama)
      ensures Tally() == K.Nol && kerusakan == "" && persenTercatat == None && Valid()
    {
      this.nama, this.lokasi, tanggal := Placeholder, lokasi, sekarang;
      kelas := KelasPosko(nama);
      meninggalLaki, meninggalPerempuan, terlukaLaki, terlukaPerempuan := 0, 0, 0, 0;
      kerusakan := "";
      persenTercatat := None;
    }

    /** `tambah_korban_meninggal`: adds `jumlah` to the death counter the tag picks, if any. */
    method TambahKorbanMeninggal(jumlah: int, jenisKelamin: string)
      requires Valid()
      modifies this`meninggalLaki, this`meninggalPerempuan
      ensures Tally() == K.Tambah(old(Tally()), K.Meninggal(jumlah, jenisKelamin))
      ensures Valid()
    {
      var tag := Lower(jenisKelamin);
      if tag == "laki-laki" {
        meninggalLaki := meninggalLaki + jumlah;
      } else if tag == "perempuan" {
        meninggalPerempuan := meninggalPerempuan + jumlah;
      }
    }

    /** `tambah_korban_terluka`: adds `jumlah` to the injury counter the tag picks, if any. */
    method TambahKorbanTerluka(jumlah: int, jenisKelamin: string)
      requires Valid()
      modifies this`terlukaLaki, this`terlukaPerempuan
      ensures Tally() == K.Tambah(old(Tally()), K.Terluka(jumlah, jenisKelamin))
      ensures Valid()
    {
      var tag := Lower(jenisKelamin);
      if tag == "laki-laki" {
        terlukaLaki := terlukaLaki + jumlah;
      } else if tag == "perempuan" {
        terlukaPerempuan := terlukaPerempuan + jumlah;
      }
    }

    /**
     * A run of accumulator calls on this record, in order: the counters end as the tally
     * value run through the same calls, so the `Jalankan` lemmas hold of the record.
     */
    method CatatKorban(ps: seq<K.Panggilan>)
      requires Valid()
      modifies this`meninggalLaki, this`meninggalPerempuan, this`terlukaLaki, this`terlukaPerempuan
      ensures Tally() == K.Jalankan(old(Tally()), ps)
      ensures Valid()
    {
      var i := 0;
      while i < |ps|
        invariant 0 <= i <= |ps|
        invariant K.Jalankan(old(Tally()), ps) == K.Jalankan(Tally(), ps[i..])
        invariant Valid()
      {
        assert ps[i..][1..] == ps[i + 1..];
        match ps[i] {
          case Meninggal(jumlah, jenisKelamin) => TambahKorbanMeninggal(jumlah, jenisKelamin);
          case Terluka(jumlah, jenisKelamin) => TambahKorbanTerluka(jumlah, jenisKelamin);
        }
        i := i + 1;
      }
    }

    /** The class label of `tambah_korban`: `Posko` overrides it, `BantuanKorban` inherits it. */
    function NamaKelas(): string {
      if kelas.KelasPosko? then "Posko" else "Bencana"
    }

    /**
     * `tambah_korban` and its override `Posko.tambah_korban`: the printed line, labelled by
     * the class; no counter is read or changed.
     */
    function TambahKorban(jumlah: int, jenisKelamin: string, jenisKecelakaan: Option<string>): (pesan: string)
      ensures kelas.KelasPosko? ==> StartsWith(pesan, "Tambahan korban dari kelas Posko: ")
      ensures !kelas.KelasPosko? ==> StartsWith(pesan, "Tambahan korban dari kelas Bencana: ")
    {
      PesanKorban(NamaKelas(), jumlah, jenisKelamin, jenisKecelakaan)
    }

    /** `total_korban()`. */
    function TotalKorban(): (total: int)
      reads this
      ensures total == meninggalLaki + meninggalPerempuan + terlukaLaki + terlukaPerempuan
    {
      K.Total(Tally())
    }

    /**
     * `persentase_kerusakan()`: with a positive total, the length of the descriptor per
     * victim, in percent; otherwise the fixed no-information answer, without dividing.
     */
    function PersentaseKerusakan(): (r: Ringkasan)
      reads this
      ensures r.TidakAdaInformasi? <==> TotalKorban() <= 0
      ensures r.Persentase? ==> r.total > 0 && r.total == TotalKorban() && r.panjang == |kerusakan|
    {
      var total := TotalKorban();
      if total > 0 then Persentase(|kerusakan|, total) else TidakAdaInformasi
    }

    /** `info_kerusakan(p)` with `p` given in hundredths: stores the descriptor for it. */
    method InfoKerusakan(perseratus: int)
      modifies this`kerusakan, this`persenTercatat
      ensures kerusakan == Deskripsi(perseratus) && persenTercatat == Some(perseratus) && Valid()
    {
      kerusakan := Deskripsi(perseratus);
      persenTercatat := Some(perseratus);
    }

    /** `info_bencana()`: a fresh snapshot with the eight keys, each holding its field. */
    function InfoBencana(): (info: Dict<NilaiInfo>)
      reads this
      ensures Keys(info) == KunciInfo && Distinct(Keys(info))
      ensures Get(info, "Nama") == Some(Teks(nama))
      ensures Get(info, "Lokasi") == Some(Teks(lokasi))
      ensures Get(info, "Tanggal") == Some(Stempel(tanggal))
      ensures Get(info, "Korban Meninggal Laki-laki") == Some(Bilangan(meninggalLaki))
      ensures Get(info, "Korban Meninggal Perempuan") == Some(Bilangan(meninggalPerempuan))
      ensures Get(info, "Korban Terluka Laki-laki") == Some(Bilangan(terlukaLaki))
      ensures Get(info, "Korban Terluka Perempuan") == Some(Bilangan(terlukaPerempuan))
      ensures Get(info, "Kerusakan") == Some(Teks(kerusakan))
    {
      var info := [
        ("Nama", Teks(nama)),
        ("Lokasi", Teks(lokasi)),
        ("Tanggal", Stempel(tanggal)),
        ("Korban Meninggal Laki-laki", Bilangan(meninggalLaki)),
        ("Korban Meninggal Perempuan", Bilangan(meninggalPerempuan)),
        ("Korban Terluka Laki-laki", Bilangan(terlukaLaki)),
        ("Korban Terluka Perempuan", Bilangan(terlukaPerempuan)),
        ("Kerusakan", Teks(kerusakan))
      ];
      assert Keys(info) == KunciInfo;
      KunciInfoDistinct();
      GetAt(info, 0); GetAt(info, 1); GetAt(info, 2); GetAt(info, 3);
      GetAt(info, 4); GetAt(info, 5); GetAt(info, 6); GetAt(info, 7);
      info
    }

    /**
     * `tambah_info(**kwargs)`: the snapshot with each keyword argument written over it in
     * turn. Keyword arguments have distinct names.
     */
    method TambahInfo(kwargs: Dict<NilaiInfo>) returns (informasi: Dict<NilaiInfo>)
      requires Distinct(Keys(kwargs))
      ensures informasi == Overlay(InfoBencana(), kwargs)
      ensures ToMap(informasi) == ToMap(InfoBencana()) + ToMap(kwargs)
      ensures KunciInfo <= Keys(informasi) && Distinct(Keys(informasi))
    {
      informasi := InfoBencana();
      var i := 0;
      while i < |kwargs|
        invariant 0 <= i <= |kwargs|
        invariant informasi == Overlay(InfoBencana(), kwargs[..i])
      {
        assert kwargs[..i + 1][..i] == kwargs[..i];
        informasi := Set(informasi, kwargs[i].0, kwargs[i].1);
        i := i + 1;
      }
      assert kwargs[..i] == kwargs;
      OverlayAsMap(InfoBencana(), kwargs);
      OverlayKeysPrefix(InfoBencana(), kwargs);
      OverlayKeysDistinct(InfoBencana(), kwargs);
    }

    /**
     * `ubah_nama_bencana()` reading the lines `masukan` instead of the console: every line up
     * to the first sentinel becomes the name in turn, with a confirmation line each;
     * `habis` says the input ran out before a sentinel (where `input()` raises EOFError).
     */
    method UbahNamaBencana(masukan: seq<string>) returns (pesan: seq<string>, habis: bool)
      requires Valid()
      modifies this`nama
      ensures nama == NamaSetelah(old(nama), masukan)
      ensures Valid()
      ensures habis <==> IndeksSelesai(masukan) == |masukan|
      ensures |pesan| == IndeksSelesai(masukan)
      ensures forall i :: 0 <= i < |pesan| ==> pesan[i] == PesanUbahNama(masukan[i])
    {
      pesan := [];
      var i := 0;
      while i < |masukan| && !Selesai(masukan[i])
        invariant 0 <= i <= IndeksSelesai(masukan)
        invariant nama == if i == 0 then old(nama) else masukan[i - 1]
        invariant |pesan| == i
        invariant forall j :: 0 <= j < i ==> pesan[j] == PesanUbahNama(masukan[j])
        invariant Valid()
      {
        nama := masukan[i];
        pesan := pesan + [PesanUbahNama(masukan[i])];
        i := i + 1;
      }
      assert i == IndeksSelesai(masukan);
      habis := i == |masukan|;
    }

    /**
     * `bantuan_korban(bantuan)`: with victims, the aid of the shipment's type is announced;
     * without, the no-victims line. An object that is not a `BantuanKorban` has no `jenis`,
     * which fails (AttributeError) only on the branch that reads it.
     */
    function UmumkanBantuan(bantuan: Bencana): (r: Result<string>)
      reads this
      ensures TotalKorban() <= 0 ==> r == Ok(TidakAdaKorbanTeks)
      ensures r.Err? <==> TotalKorban() > 0 && !bantuan.kelas.KelasBantuanKorban?
      ensures r.Ok? && TotalKorban() > 0 ==> StartsWith(r.value, "Bantuan " + bantuan.kelas.jenis + " ")
    {
      if TotalKorban() > 0 then
        match bantuan.kelas
        case KelasBantuanKorban(jenis, _) =>
          var depan := "Bantuan " + jenis + " ";
          var pesan := depan + "sedang diberikan kepada korban bencana.";
          assert pesan[..|depan|] == depan;
          Ok(pesan)
        case _ => Err("jenis")
      else
        Ok(TidakAdaKorbanTeks)
    }

    /**
     * `buat_posko(posko)` as written: it reads the station's inherited name
     * (`_Bencana__nama`), which a `Posko` never sets, and its location.
     */
    function BuatPosko(posko: Bencana): (pesan: string)
      reads posko
      ensures StartsWith(pesan, "Posko bencana " + posko.nama + " telah didirikan di ")
      ensures EndsWith(pesan, posko.lokasi + EkorPosko)
    {
      PesanPosko(posko.nama, posko.lokasi)
    }

    /** `buat_posko(posko)` naming the station by its own name, as evidently intended. */
    function BuatPoskoKoreksi(posko: Bencana): (pesan: string)
      reads posko
      ensures posko.kelas.KelasPosko? ==> StartsWith(pesan, "Posko bencana " + posko.kelas.namaPosko + " telah didirikan di ")
      ensures EndsWith(pesan, posko.lokasi + EkorPosko)
    {
      PesanPosko(if posko.kelas.KelasPosko? then posko.kelas.namaPosko else posko.nama, posko.lokasi)
    }

    /**
     * `Posko.tambah_info_posko(info)`: only a `Posko` has it; prints the information
     * after a fixed label.
     */
    function TambahInfoPosko(info: string): (pesan: string)
      requires kelas.KelasPosko?
      ensures StartsWith(pesan, "Informasi Posko: ") && EndsWith(pesan, info)
      ensures |pesan| == |"Informasi Posko: "| + |info|
    {
      var pesan := "Informasi Posko: " + info;
      assert pesan[..17] == "Informasi Posko: ";
      assert pesan[|pesan| - |info|..] == info;
      pesan
    }

    /**
     * The damage percentage `simpan_file` puts in its row: 0 with no descriptor, otherwise
     * the number in front of the first `%`, read back (`None` where `float` would fail).
     */
    function PersenEkspor(): (r: Option<int>)
      reads this
      ensures kerusakan == "" ==> r == Some(0)
    {
      if kerusakan == "" then Some(0) else ParseCenti(SplitFirst(kerusakan, '%'))
    }

    /** The exported percentage is the one last recorded, or 0 if none was. */
    lemma PersenEksporTercatat()
      requires Valid()
      ensures PersenEkspor() == Some(if persenTercatat.Some? then persenTercatat.value else 0)
    {
      if persenTercatat.Some? {
        var c := persenTercatat.value;
        var ekor := EkorDeskripsi;
        assert kerusakan == FormatCenti(c) + ['%'] + ekor;
        forall i | 0 <= i < |FormatCenti(c)| ensures FormatCenti(c)[i] != '%' {
          FormatCentiChars(c, i);
        }
        SplitFirstFront(FormatCenti(c), '%', ekor);
        ParseFormatCenti(c);
      }
    }

    /**
     * The one-row record `simpan_file` builds: the snapshot read through the export
     * columns (a column the snapshot lacks is empty, `None`), with the damage percentage
     * put into the last column; `None` where reading the percentage fails.
     */
    function BarisEkspor(): (baris: Option<seq<Option<NilaiInfo>>>)
      reads this
      ensures baris.Some? <==> PersenEkspor().Some?
      ensures baris.Some? ==> |baris.value| == |KolomEkspor|
      ensures baris.Some? ==> forall i :: 0 <= i < 7 ==> baris.value[i] == Get(InfoBencana(), KolomEkspor[i])
      ensures baris.Some? ==> baris.value[7] == Some(Desimal(PersenEkspor().value))
    {
      var info := InfoBencana();
      var kolom := seq(|KolomEkspor|, i requires 0 <= i < |KolomEkspor| => Get(info, KolomEkspor[i]));
      match PersenEkspor()
      case None => None
      case Some(p) => Some(kolom[7 := Some(Desimal(p))])
    }

    /**
     * The exported row holds the name, location, moment and four counters, and the last
     * recorded percentage (0 if none); the descriptor itself is not exported.
     */
    lemma BarisEksporIsi()
      requires Valid()
      ensures BarisEkspor() == Some([
        Some(Teks(nama)), Some(Teks(lokasi)), Some(Stempel(tanggal)),
        Some(Bilangan(meninggalLaki)), Some(Bilangan(meninggalPerempuan)),
        Some(Bilangan(terlukaLaki)), Some(Bilangan(terlukaPerempuan)),
        Some(Desimal(if persenTercatat.Some? then persenTercatat.value else 0))])
    {
      PersenEksporTercatat();
      var info := InfoBencana();
      var kolom := seq(|KolomEkspor|, i requires 0 <= i < |KolomEkspor| => Get(info, KolomEkspor[i]));
      assert KolomEkspor[0] == "Nama" && KolomEkspor[1] == "Lokasi" && KolomEkspor[2] == "Tanggal";
      assert kolom[0] == Some(Teks(nama));
      assert kolom[1] == Some(Teks(lokasi));
      assert kolom[2] == Some(Stempel(tanggal));
      assert kolom[3] == Some(Bilangan(meninggalLaki));
      assert kolom[4] == Some(Bilangan(meninggalPerempuan));
      assert kolom[5] == Some(Bilangan(terlukaLaki));
      assert kolom[6] == Some(Bilangan(terlukaPerempuan));
      var d := Some(Desimal(if persenTercatat.Some? then persenTercatat.value else 0));
      var baris := kolom[7 := d];
      assert BarisEkspor() == Some(baris);
      assert |baris| == 8;
      assert baris == kolom[..7] + [d];
      assert baris == [
        Some(Teks(nama)), Some(Teks(lokasi)), Some(Stempel(tanggal)),
        Some(Bilangan(meninggalLaki)), Some(Bilangan(meninggalPerempuan)),
        Some(Bilangan(terlukaLaki)), Some(Bilangan(terlukaPerempuan)), d];
    }
  }

  /** `tambah_korban` on a `Posko` and on any other record give different lines. */
  lemma TambahKorbanPoskoBerbeda(b: Bencana, p: Bencana, jumlah: int, jenisKelamin: string, jenisKecelakaan: Option<string>)
    requires !b.kelas.KelasPosko? && p.kelas.KelasPosko?
    ensures b.TambahKorban(jumlah, jenisKelamin, jenisKecelakaan) != p.TambahKorban(jumlah, jenisKelamin, jenisKecelakaan)
  {
    PesanKorbanKelasBerbeda(jumlah, jenisKelamin, jenisKecelakaan);
  }

  /**
   * As written, `buat_posko` cannot tell two stations at one location apart: both are
   * announced under the placeholder name.
   */
  lemma BuatPoskoTidakMembedakan(b: Bencana, p1: Bencana, p2: Bencana)
    requires p1.kelas.KelasPosko? && p2.kelas.KelasPosko?
    requires p1.nama == Placeholder && p2.nama == Placeholder && p1.lokasi == p2.lokasi
    ensures b.BuatPosko(p1) == b.BuatPosko(p2)
    ensures b.BuatPosko(p1) == PesanPosko(Placeholder, p1.lokasi)
  {
  }
  /**
   * As written, a field station whose own name is not the placeholder is announced under
   * a name other than its own: the announcement differs from the corrected one.
   */
  lemma BuatPoskoBukanNamaSendiri(p: Bencana)
    requires p.kelas.KelasPosko? && p.nama == Placeholder && p.kelas.namaPosko != Placeholder
    ensures p.BuatPosko(p) != p.BuatPoskoKoreksi(p)
  {
    PesanPoskoMembedakan(Placeholder, p.kelas.namaPosko, p.lokasi);
  }


  /** Corrected, two stations at one location with different names are announced differently. */
  lemma BuatPoskoKoreksiMembedakan(b: Bencana, p1: Bencana, p2: Bencana)
    requires p1.kelas.KelasPosko? && p2.kelas.KelasPosko?
    requires p1.kelas.namaPosko != p2.kelas.namaPosko && p1.lokasi == p2.lokasi
    ensures b.BuatPoskoKoreksi(p1) != b.BuatPoskoKoreksi(p2)
  {
    PesanPoskoMembedakan(p1.kelas.namaPosko, p2.kelas.namaPosko, p1.lokasi);
  }

  /** The descriptor for 35.00 percent, 72 characters long. */
  lemma DeskripsiContoh()
    ensures Deskripsi(3500) == "35.00%" + EkorDeskripsi
    ensures |Deskripsi(3500)| == 72
  {
    assert NatStr(35) == "35";
    assert FormatCenti(3500) == "35.00";
  }

  /**
   * The casualties the usage example records, 5 + 5 deaths and 12 + 8 injuries, with tags
   * that read as male and female.
   */
  method CatatKorbanGempa(gempa: Bencana, laki: string, perempuan: string)
    requires K.Kelamin(laki) == K.LakiLaki && K.Kelamin(perempuan) == K.Perempuan
    requires gempa.Tally() == K.Nol && gempa.Valid()
    modifies gempa`meninggalLaki, gempa`meninggalPerempuan, gempa`terlukaLaki, gempa`terlukaPerempuan
    ensures gempa.Tally() == K.Korban(5, 5, 12, 8)
    ensures gempa.Valid()
  {
    var ps := [K.Meninggal(5, laki), K.Meninggal(5, perempuan), K.Terluka(12, laki), K.Terluka(8, perempuan)];
    gempa.CatatKorban(ps);
    K.JalankanContoh(K.Nol, laki, perempuan);
  }

  /** 72 characters of descriptor over 30 victims is 240 percent. */
  lemma PersenContoh()
    ensures Persentase(72, 30).Persen() == 240.0
  {
  }

  /**
   * The usage at the bottom of the module: an earthquake record with 5 + 5 deaths and
   * 12 + 8 injuries, its damage summary (taken before 35.00 percent is recorded), the
   * percentage its export row carries, and the announcement of a field station. `sesudah`
   * is one step beyond the script, which asks for the summary only once: the summary
   * taken again after the percentage is recorded.
   */
  method ContohGempa(sekarang: Waktu) returns (total: int, sebelum: Ringkasan, sesudah: Ringkasan,
                                               ekspor: Option<int>, posko: string)
    ensures total == 30
    ensures sebelum == Persentase(0, 30)
    ensures sesudah == Persentase(72, 30)
    ensures ekspor == Some(3500)
    ensures posko == PesanPosko("Default", "Lapangan dan Masjid Terdekat yang tidak terkena dampak")
  {
    var gempa := new Bencana("Gempa Bumi", "Pesisir Selatan", "12 November 2023", sekarang);
    K.KelaminTanpaHurufBesar();
    CatatKorbanGempa(gempa, "Laki-laki", "Perempuan");
    total := gempa.TotalKorban();
    sebelum := gempa.PersentaseKerusakan();
    DeskripsiContoh();
    gempa.InfoKerusakan(3500);
    sesudah := gempa.PersentaseKerusakan();
    gempa.PersenEksporTercatat();
    ekspor := gempa.PersenEkspor();
    var stasiun := new Bencana.Posko("Posko Gempa", "Lapangan dan Masjid Terdekat yang tidak terkena dampak", sekarang);
    posko := gempa.BuatPosko(stasiun);
  }
}
