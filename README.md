# Disaster record (`Bencana`) — a Dafny model

This project models the disaster record of `bencana2.py`: the class `Bencana` and its two
subclasses `BantuanKorban` (an aid shipment) and `Posko` (a field station).

A `Bencana` holds a name, a location, a creation moment, four casualty counters (deaths and
injuries, each for men and women) and a free-text damage descriptor `kerusakan`. The two
accumulators `tambah_korban_meninggal` and `tambah_korban_terluka` add to the counter that
the lower-cased sex tag picks (`"laki-laki"` or `"perempuan"`) and silently ignore any other
tag. `total_korban` sums the counters. `persentase_kerusakan` divides the *length of the
descriptor string* by the total, and guards against a zero total. That formula is a quirk of
the code, and it is modelled as written. `info_bencana` returns an eight-key snapshot.
`tambah_info` writes keyword arguments over a copy of the snapshot. `ubah_nama_bencana` renames
the record from console lines until the sentinel `selesai` (any case).
`bantuan_korban`, `buat_posko` and both versions of `tambah_korban` print one line each.
`tanggapan_pemerintah` prints a fixed line, `Bencana.TanggapanPemerintahTeks`.

Modules:

- `Korban` (`korban.dfy`) holds the casualty tally as a value. `Tambah` is one accumulator
  call and `Jalankan` is a run of calls; the lemmas say what any run does to the counters and
  the total.
- `Bencana` (`bencana.dfy`) holds the class. The three Python classes become one Dafny class
  `Bencana.Bencana`. Its constant `kelas` records which class an object was built as:
  `constructor` for `Bencana`, `Bantuan` for `BantuanKorban` and `Posko` for `Posko`.
  `tambah_korban`, which `Posko` overrides, dispatches on `kelas`. The accumulators,
  `info_kerusakan` and the rename loop are methods that update fields in place. The pure
  reads are functions. Every printed line is returned as a string instead.
- `OrderedDict` (`ordered_dict.dfy`) models Python dictionaries with string keys, which keep
  insertion order. A dictionary is a sequence of (key, value) entries; `Set` is `d[k] = v`
  and `Overlay` is the loop of `tambah_info`.
- `Numeral` (`numeral.dfy`) has the decimal text of integers. It renders a percentage held in
  hundredths as `:.2f` does, and reads such text back as `float(...)` does.
- `Text` (`text.dfy`) has ASCII lower-casing and `split(sep)[0]`. `Wrappers` has `Option`
  and `Result`.

The clock reading `datetime.now()` becomes a parameter `sekarang` of every constructor. The
constructor's own `tanggal` argument is ignored, as in the code. A snapshot is a Dafny value,
so it is a fresh copy by construction, and two snapshots taken with no change in between are
equal. Functions cannot change the record, so none of the reads (`TotalKorban`,
`PersentaseKerusakan`, `InfoBencana`, `TambahKorban`, `UmumkanBantuan`, `BuatPosko`) touches a
counter. `TambahInfo` is a method without a `modifies` clause, so it cannot change the record
either.

## Model

| member | source | states |
|---|---|---|
| `Bencana.Bencana.constructor` | bencana2.py:9-17 | a new record has the given name and location, the clock's moment (not the `tanggal` argument), all four counters 0 and an empty descriptor |
| `Bencana.Bencana.Bantuan` | bencana2.py:143-147 | an aid shipment has the placeholder name and location "Default", zero counters, and its own aid type and quantity |
| `Bencana.Bencana.Posko` | bencana2.py:149-153 | a field station keeps its name in a field of its own, so its inherited name stays "Default"; its location does replace the inherited one |
| `Korban.Tambah` | bencana2.py:19-29 | one accumulator call adds `jumlah` to exactly the counter that the lower-cased tag picks, and leaves the other three unchanged; an unrecognised tag changes nothing; the total grows by `jumlah` when the tag is recognised and by 0 otherwise |
| `Bencana.Bencana.TambahKorbanMeninggal` | bencana2.py:19-23 | the counters after the call are `Tambah` of the counters before, with a death call; only the two death counters may change; the descriptor invariant is kept |
| `Bencana.Bencana.TambahKorbanTerluka` | bencana2.py:25-29 | the counters after the call are `Tambah` of the counters before, with an injury call; only the two injury counters may change; the descriptor invariant is kept |
| `Korban.KelaminTanpaHurufBesar` | bencana2.py:20-22 | tags are matched case-insensitively ("Laki-laki", "LAKI-LAKI", "Perempuan", "PEREMPUAN" are recognised); "Pria" and "laki laki" are not |
| `Bencana.Bencana.TotalKorban` | bencana2.py:37-41 | the total is the sum of the four counters |
| `Bencana.Bencana.CatatKorban` | bencana2.py:19-29 | a run of accumulator calls on the record, in order, leaves the counters equal to the tally value run through the same calls (`Jalankan`), so every `Jalankan` lemma below holds of the record itself |
| `Korban.JalankanTotal` | bencana2.py:19-41 | after any run of accumulator calls, the total has grown by the sum of the amounts of the calls with a recognised tag |
| `Korban.JalankanDikenali` | bencana2.py:19-41 | when every tag in a run is recognised, the total grows by exactly the sum of all the amounts (from a fresh record: equals it) |
| `Korban.JalankanMonoton` | bencana2.py:19-29 | with non-negative amounts, no counter ever decreases, whatever the tags |
| `Korban.JalankanTidakDikenali` | bencana2.py:19-29 | a run in which no tag is recognised leaves all four counters as they were |
| `Korban.TambahTukar` | bencana2.py:19-29 | two accumulator calls give the same counters in either order |
| `Korban.JalankanPermutasi` | bencana2.py:19-29 | a run's outcome depends only on which calls were made, not on their order |
| `Bencana.Bencana.PersentaseKerusakan` | bencana2.py:43-49 | the answer is the no-information result exactly when the total is not positive, whatever the descriptor; otherwise it is the ratio of the descriptor's length to the (positive) total |
| `Bencana.Ringkasan.Persen` | bencana2.py:46 | the percentage times the total equals 100 times the descriptor length |
| `Bencana.PersenContoh` | bencana2.py:46 | 72 characters over 30 victims is 240 percent |
| `Bencana.Bencana.InfoKerusakan` | bencana2.py:51-52 | the descriptor becomes the two-decimal rendering of the percentage followed by the fixed damage sentence; the record's invariant holds after it |
| `Bencana.DeskripsiContoh` | bencana2.py:52 | the descriptor for 35.00 percent is "35.00%" followed by the fixed sentence, 72 characters in all |
| `Bencana.KunciInfoDistinct` | bencana2.py:54-64 | the eight snapshot keys are distinct |
| `Bencana.Bencana.InfoBencana` | bencana2.py:54-64 | the snapshot has exactly the eight keys in order; each key holds its field (name, location, moment, the four counters, the descriptor) |
| `Bencana.Bencana.TambahInfo` | bencana2.py:78-82 | the result is the snapshot overlaid with the keyword arguments: as a mapping it is snapshot + arguments (an argument's key holds its value, every other key its snapshot value); the snapshot's keys come first in their order; keys stay distinct; the record is not modified |
| `OrderedDict.SetKeys` | bencana2.py:81 | `d[k] = v` keeps an existing key in its place and appends a new key |
| `OrderedDict.SetGet` | bencana2.py:81 | after `d[k] = v`, `k` holds `v` and every other key holds what it held before |
| `OrderedDict.GetAt` | bencana2.py:81 | in a dictionary with distinct keys, each entry is what its key looks up |
| `OrderedDict.GetSnoc` | bencana2.py:81 | appending a new entry leaves the lookups of earlier keys unchanged |
| `OrderedDict.OverlayGet` | bencana2.py:80-81 | after the loop, a key given as an argument holds the argument's value, and any other key holds what it held in the snapshot |
| `OrderedDict.OverlayKeysPrefix` | bencana2.py:80-81 | the loop keeps the snapshot's keys in front, in their order |
| `OrderedDict.OverlayKeysIn` | bencana2.py:80-81 | the keys after the loop are the snapshot's keys and the arguments' keys |
| `OrderedDict.OverlayKeysDistinct` | bencana2.py:80-81 | the loop never duplicates a key |
| `OrderedDict.OverlayAsMap` | bencana2.py:78-82 | as a plain mapping, the result is the right-biased union of snapshot and arguments |
| `Bencana.Bencana.UbahNamaBencana` | bencana2.py:84-90 | reading lines up to the first sentinel, the name ends as the last line before it (unchanged if the sentinel comes first); one confirmation per accepted line; running out of input is reported; only the name changes, and the descriptor invariant is kept |
| `Bencana.IndeksSelesai` | bencana2.py:85-88 | the loop stops at the first line whose lower-cased form is "selesai": no earlier line is a sentinel |
| `Bencana.NamaSetelahLangkah` | bencana2.py:85-89 | one step of the loop: a sentinel stops it with the name unchanged, and any other line becomes the name at once |
| `Bencana.NamaSetelahAbaikanSisa` | bencana2.py:85-88 | lines after the sentinel are never read |
| `Bencana.NamaSetelahBukanSelesai` | bencana2.py:87-89 | the final name is the old one, or an input line that is not a sentinel |
| `Bencana.Bencana.TambahKorban` | bencana2.py:31-35 | the printed line carries the class label "Posko" for a field station and "Bencana" otherwise (a `BantuanKorban` inherits the base version) |
| `Bencana.PesanKorban` | bencana2.py:31-35 | the line starts with "Tambahan korban dari kelas", the class label and ": " |
| `Bencana.PesanKorbanKecelakaan` | bencana2.py:32-35 | the incident type appears exactly when it is given: the line with it is the line without it followed by " pada kecelakaan " and the type, and the two lines differ |
| `Bencana.PesanKorbanKelasBerbeda` | bencana2.py:155-159 | for the same arguments, the "Bencana" line and the "Posko" line differ |
| `Bencana.TambahKorbanPoskoBerbeda` | bencana2.py:155-159 | `tambah_korban` on a field station and on any other record give different lines for the same arguments |
| `Bencana.Bencana.UmumkanBantuan` | bencana2.py:66-70 | without victims, the result is the fixed no-victims line; with victims, it announces aid of the shipment's type, or fails (AttributeError on `jenis`) when the argument is not an aid shipment |
| `Bencana.Bencana.BuatPosko` | bencana2.py:75-76 | as written, the announcement names the station's inherited name, not the station's own name, and ends with the station's (overwritten) location and the closing words |
| `Bencana.BuatPoskoBukanNamaSendiri` | bencana2.py:75-76 | as written, a field station whose own name is not the placeholder is announced differently from the corrected announcement, that is, not under its own name |
| `Bencana.BuatPoskoTidakMembedakan` | bencana2.py:75-76 | as written, two field stations at one location are announced identically, both under "Default" |
| `Bencana.Bencana.BuatPoskoKoreksi` | bencana2.py:75-76 | corrected, a field station is announced under its own name, and the announcement ends with its location and the closing words |
| `Bencana.PesanPosko` | bencana2.py:76 | the announcement is exactly "Posko bencana ", the name and " telah didirikan di ", followed by the location and " untuk koordinasi dan penanganan." (prefix, suffix and length together fix every character) |
| `Bencana.PesanPoskoMembedakan` | bencana2.py:76 | for one location, different station names give different announcements |
| `Bencana.PesanPoskoLokasiMembedakan` | bencana2.py:76 | for one name, different locations give different announcements |
| `Bencana.BuatPoskoKoreksiMembedakan` | bencana2.py:75-76 | corrected, two field stations at one location with different names are announced differently |
| `Bencana.Bencana.TambahInfoPosko` | bencana2.py:161-162 | the line is exactly "Informasi Posko: " followed by the information (prefix, suffix and length); only a field station has this operation |
| `Text.SplitFirst` | bencana2.py:107 | `split('%')[0]` is a prefix of the text that contains no '%' and stops at the first '%' |
| `Text.SplitFirstFront` | bencana2.py:107 | the part in front of the first separator is recovered |
| `Numeral.ParseNatStr` | bencana2.py:107 | reading back the digits of a natural number gives the number |
| `Numeral.FormatCentiChars` | bencana2.py:52 | the two-decimal rendering contains only digits, '.' and '-' (no '%') |
| `Numeral.ParseFormatCenti` | bencana2.py:52 | reading back a two-decimal rendering gives the value it was written from |
| `Bencana.Bencana.PersenEkspor` | bencana2.py:106-109 | with no descriptor the exported percentage is 0 (the `if` at line 106) |
| `Bencana.Bencana.PersenEksporTercatat` | bencana2.py:106-109 | the percentage in the exported row is the one last recorded by `info_kerusakan`, or 0 when there is no descriptor |
| `Bencana.Bencana.BarisEkspor` | bencana2.py:103-111 | the row exists exactly when the percentage can be read back; it has one cell per export column; the first seven cells are the snapshot read through the columns, and the last is the read-back percentage |
| `Bencana.Bencana.BarisEksporIsi` | bencana2.py:93-111 | the exported row is name, location, moment, the four counters and the recorded percentage; the descriptor itself is not exported |
| `Korban.JalankanContoh` | bencana2.py:166-170 | from any tally, the usage example's run of 5 + 5 deaths and 12 + 8 injuries adds exactly those amounts to the four counters |
| `Bencana.CatatKorbanGempa` | bencana2.py:166-170 | the usage example's 5 + 5 deaths and 12 + 8 injuries, replayed on a fresh record, land in the four counters |
| `Bencana.ContohGempa` | bencana2.py:165-204 | in the usage example, the total is 30; the summary at line 184, taken before 35.00 percent is recorded at line 186, is 0/30; the export carries 35.00; the station is announced as "Default". One step beyond the script, which asks for the summary only once: taken again after the recording, it is 72/30 (240 percent) |

## Findings

| source | as written | input that shows it | evidently intended | confidence | as-written member | corrected member |
|---|---|---|---|---|---|---|
| bencana2.py:76 | `buat_posko` reads `posko._Bencana__nama`, but `Posko.__init__` (line 152) stores the station's name as `_Posko__nama`, so every station is announced under the placeholder "Default" | `Posko("Posko Gempa", "Lapangan dan Masjid Terdekat yang tidak terkena dampak")` is announced as "Posko bencana Default telah didirikan di Lapangan dan Masjid Terdekat yang tidak terkena dampak untuk koordinasi dan penanganan." | the announcement names the station's own name ("Posko Gempa") | medium; not executed | `Bencana.BuatPoskoBukanNamaSendiri` | `Bencana.BuatPoskoKoreksiMembedakan` |

`Bencana.Bencana.BuatPosko` keeps the behaviour as written, and `Bencana.BuatPoskoBukanNamaSendiri`
shows that it differs from the corrected announcement `Bencana.Bencana.BuatPoskoKoreksi`.
`Bencana.ContohGempa` shows the as-written message for the station built in the usage example.

## Left out

- `simpan_file`: the pandas DataFrame rendering, `tabulate` and the file write are not modelled. Only the one-row record is modelled (`BarisEkspor`).
- `visualisasi`: matplotlib/seaborn plotting is not modelled. It only reads the four counters.
- Printing: every `print` becomes a returned string (or a sequence of strings for the rename loop).
- The clock: `datetime.now()` is a parameter, and the `strftime` text of a moment is the opaque value `Stempel`.
- The console: `input()` becomes a sequence of lines. An exhausted sequence stands for the EOFError that `input()` would raise. The prompt that `input()` prints before every read (bencana2.py:86), including the read of the sentinel, is not among the returned lines; `UbahNamaBencana` returns only the confirmations.
- `numpy` in `total_korban` is plain integer addition. The silent wrap-around of `np.sum` over 64-bit integers past 2^63 - 1 is not modelled.
- The usage script at the bottom of the file is modelled only as far as `ContohGempa` and `CatatKorbanGempa` follow it. Renaming from the console, saving and plotting are not part of that model.
- Python default arguments (`jenis_kelamin="Laki-laki"`, `jenis_kecelakaan=None`) are not modelled. Callers pass every argument, with `None` for no incident type.
- Python's dynamic attributes are not modelled: outside code can reassign any field, or give any object a `jenis` attribute. The model only changes fields through the modelled operations.
- Text.Lower: folds ASCII letters only. Python's `str.lower()` also folds other characters, for example the Kelvin sign U+212A to `k`, so a tag spelled with it is recognised by the code but not by the model.
- Bencana.Ringkasan: the percentage is kept as the exact ratio of two integers. The `:.2f` rounding and the text of the printed sentence are not modelled; only the no-information text is (`TidakAdaInformasiTeks`).
- Bencana.Bencana.InfoKerusakan: takes the percentage as a whole number of hundredths. Rounding an arbitrary float to two decimals, and NaN and infinities, are not modelled.
- Numeral.ParseCenti: reads only the shape the two-decimal rendering writes (optional '-', digits, '.', two digits). Python's `float` accepts more. The model only ever reads descriptors that `info_kerusakan` wrote.
- Bencana.Bencana.TambahInfo: requires distinct keyword names, which Python guarantees for `**kwargs`. Argument values are modelled with the same value type as the snapshot (text, integers, moments, decimals), not as arbitrary Python objects.
