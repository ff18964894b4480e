/** The insert tool of the identity-card database: the rename table from the
    vision model's field names to table columns, the split of the two composite
    fields, the all-or-nothing required-column gate, and the duplicate check and
    insert over a table keyed by the unique NIK. */
module IdCardRecords {
  import opened Values
  import opened Text

  /** The columns of the `id_cards` table that the insert tool fills. */
  datatype Column =
    | Nik | Nama | TempatLahir | TanggalLahir | JenisKelamin | GolDarah | Alamat
    | RtRw | KelDesa | Kecamatan | Agama | StatusPerkawinan | Kewarganegaraan
    | BerlakuHingga | PlaceOfCreation | DateOfCreation

  /** The column's name in the table, as the error message spells it. */
  function ColumnName(c: Column): string {
    match c
    case Nik => "nik"
    case Nama => "nama"
    case TempatLahir => "tempat_lahir"
    case TanggalLahir => "tanggal_lahir"
    case JenisKelamin => "jenis_kelamin"
    case GolDarah => "gol_darah"
    case Alamat => "alamat"
    case RtRw => "rt_rw"
    case KelDesa => "kel_desa"
    case Kecamatan => "kecamatan"
    case Agama => "agama"
    case StatusPerkawinan => "status_perkawinan"
    case Kewarganegaraan => "kewarganegaraan"
    case BerlakuHingga => "berlaku_hingga"
    case PlaceOfCreation => "place_of_creation"
    case DateOfCreation => "date_of_creation"
  }

  /** The rename table: model output key and the column it fills, in order. */
  const KeyMapping: seq<(string, Column)> := [
    ("NIK", Nik),
    ("Nama", Nama),
    ("Jenis Kelamin", JenisKelamin),
    ("Gol. Darah", GolDarah),
    ("Alamat", Alamat),
    ("RT/RW", RtRw),
    ("Kel/Desa", KelDesa),
    ("Kecamatan", Kecamatan),
    ("Agama", Agama),
    ("Status Perkawinan", StatusPerkawinan),
    ("Kewarganegaraan", Kewarganegaraan),
    ("Berlaku Hingga", BerlakuHingga),
    ("Place and Date of Creation", PlaceOfCreation)
  ]

  /** The combined "place, date of birth" field of the model output. */
  const BirthKey: string := "Tempat/Tgl Lahir"

  /** The combined "place and date of issue" field of the model output. */
  const CreationKey: string := "Place and Date of Creation"

  /** The columns that must be truthy before a record is inserted, in order. */
  const RequiredColumns: seq<Column> := [
    Nik, Nama, TempatLahir, TanggalLahir, JenisKelamin, Alamat, RtRw,
    KelDesa, Kecamatan, Agama, StatusPerkawinan, Kewarganegaraan, BerlakuHingga
  ]

  const BirthParseError: string := "Failed to parse 'Tempat/Tgl Lahir' field."
  const MissingPrefix: string := "After parsing, required fields are still missing: "
  const DuplicateNikError: string := "This NIK already exists in the database."

  /** The columns the rename table fills. */
  predicate IsRenamed(c: Column) {
    c != TempatLahir && c != TanggalLahir && c != DateOfCreation
  }

  /** The model output key a renamed column is copied from. */
  function SourceKey(c: Column): string
    requires IsRenamed(c)
  {
    match c
    case Nik => "NIK"
    case Nama => "Nama"
    case JenisKelamin => "Jenis Kelamin"
    case GolDarah => "Gol. Darah"
    case Alamat => "Alamat"
    case RtRw => "RT/RW"
    case KelDesa => "Kel/Desa"
    case Kecamatan => "Kecamatan"
    case Agama => "Agama"
    case StatusPerkawinan => "Status Perkawinan"
    case Kewarganegaraan => "Kewarganegaraan"
    case BerlakuHingga => "Berlaku Hingga"
    case PlaceOfCreation => "Place and Date of Creation"
  }

  /** `key_mapping` read as a dictionary: the column a model output key fills. */
  function ColumnOfKey(k: string): Option<Column> {
    if k == "NIK" then Some(Nik)
    else if k == "Nama" then Some(Nama)
    else if k == "Jenis Kelamin" then Some(JenisKelamin)
    else if k == "Gol. Darah" then Some(GolDarah)
    else if k == "Alamat" then Some(Alamat)
    else if k == "RT/RW" then Some(RtRw)
    else if k == "Kel/Desa" then Some(KelDesa)
    else if k == "Kecamatan" then Some(Kecamatan)
    else if k == "Agama" then Some(Agama)
    else if k == "Status Perkawinan" then Some(StatusPerkawinan)
    else if k == "Kewarganegaraan" then Some(Kewarganegaraan)
    else if k == "Berlaku Hingga" then Some(BerlakuHingga)
    else if k == "Place and Date of Creation" then Some(PlaceOfCreation)
    else None
  }

  /** The dictionary reading undoes `SourceKey`, and the birth field is not in it. */
  lemma ColumnOfSourceKey(c: Column)
    requires IsRenamed(c)
    ensures ColumnOfKey(SourceKey(c)) == Some(c)
    ensures ColumnOfKey(BirthKey) == None
  {
    match c
    case Nik => case Nama => case JenisKelamin => case GolDarah => case Alamat =>
    case RtRw => case KelDesa => case Kecamatan => case Agama =>
    case StatusPerkawinan => case Kewarganegaraan => case BerlakuHingga =>
    case PlaceOfCreation =>
  }

  /** Different renamed columns come from different keys, none of them the
      birth field. */
  lemma SourceKeysDistinct(c: Column, d: Column)
    requires IsRenamed(c) && IsRenamed(d)
    ensures SourceKey(c) == SourceKey(d) <==> c == d
    ensures SourceKey(c) != BirthKey
  {
    ColumnOfSourceKey(c);
    ColumnOfSourceKey(d);
  }

  /** Each row of the rename table fills a renamed column from its source key. */
  lemma KeyMappingRow(j: nat)
    requires j < |KeyMapping|
    ensures IsRenamed(KeyMapping[j].1) && SourceKey(KeyMapping[j].1) == KeyMapping[j].0
  {
  }

  /** Every renamed column has a row in the rename table. */
  lemma KeyMappingCovers(c: Column) returns (j: nat)
    requires IsRenamed(c)
    ensures j < |KeyMapping| && KeyMapping[j].1 == c
  {
    match c
    case Nik => j := 0;
    case Nama => j := 1;
    case JenisKelamin => j := 2;
    case GolDarah => j := 3;
    case Alamat => j := 4;
    case RtRw => j := 5;
    case KelDesa => j := 6;
    case Kecamatan => j := 7;
    case Agama => j := 8;
    case StatusPerkawinan => j := 9;
    case Kewarganegaraan => j := 10;
    case BerlakuHingga => j := 11;
    case PlaceOfCreation => j := 12;
  }

  /** The birth field takes part in the split: present and truthy. */
  predicate HasBirth(data: map<string, Value>) {
    BirthKey in data && Truthy(data[BirthKey])
  }

  /** A truthy birth field that is not a string: `.split` raises. */
  predicate BirthUnsplittable(data: map<string, Value>) {
    HasBirth(data) && !data[BirthKey].Str?
  }

  /** A truthy creation field that is not a string: `.split` raises. */
  predicate CreationUnsplittable(data: map<string, Value>) {
    Truthy(Get(data, CreationKey)) && !Get(data, CreationKey).Str?
  }

  /** Both composite fields can be split (or are skipped). */
  predicate Splittable(data: map<string, Value>) {
    !BirthUnsplittable(data) && !CreationUnsplittable(data)
  }

  /** The renamed columns, each a copy of `data.get` of its source key. */
  function RenamedRecord(data: map<string, Value>): map<Column, Value> {
    map c: Column | IsRenamed(c) :: Get(data, SourceKey(c))
  }

  /** The birth place: the text before the first comma, stripped. */
  function BirthPlace(s: string): Value {
    Str(Strip(BeforeFirst(s, ',')))
  }

  /** The birth date: the text between the first and the second comma, stripped;
      `None` when there is no comma. */
  function BirthDate(s: string): Value {
    if ',' in s then Str(Strip(BeforeFirst(AfterFirst(s, ','), ','))) else NoneValue
  }

  /** The place of issue: the text before the first space, stripped. */
  function CreationPlace(s: string): Value {
    Str(Strip(BeforeFirst(s, ' ')))
  }

  /** The date of issue: all the text after the first space, stripped. */
  function CreationDate(s: string): Value {
    Str(Strip(AfterFirst(s, ' ')))
  }

  /** The two birth columns, set only for a truthy string birth field. */
  function BirthColumns(data: map<string, Value>): (m: map<Column, Value>)
    ensures m.Keys <= {TempatLahir, TanggalLahir}
  {
    if HasBirth(data) && data[BirthKey].Str? then
      map[TempatLahir := BirthPlace(data[BirthKey].s), TanggalLahir := BirthDate(data[BirthKey].s)]
    else map[]
  }

  /** The split creation field, for a truthy string: the place always, the date
      only when there is a space. */
  function CreationColumns(data: map<string, Value>): (m: map<Column, Value>)
    ensures m.Keys <= {PlaceOfCreation, DateOfCreation}
  {
    var v := Get(data, CreationKey);
    if Truthy(v) && v.Str? then
      if ' ' in v.s then map[PlaceOfCreation := CreationPlace(v.s), DateOfCreation := CreationDate(v.s)]
      else map[PlaceOfCreation := CreationPlace(v.s)]
    else map[]
  }

  /** The record the insert tool builds from `data`: the renamed columns, with
      the split columns laid over them. */
  function ExpectedRecord(data: map<string, Value>): map<Column, Value> {
    RenamedRecord(data) + BirthColumns(data) + CreationColumns(data)
  }

  /** The outcome of building the record, before validation. */
  datatype Built =
    | Built(record: map<Column, Value>)
    | BirthSplitFailed   // caught: the tool returns the fixed parse error
    | CreationSplitRaised // not caught: the exception leaves the tool

  /** The rename loop: one entry per row of the table. */
  method RenameFields(data: map<string, Value>) returns (record: map<Column, Value>)
    ensures record == RenamedRecord(data)
  {
    record := map[];
    for i := 0 to |KeyMapping|
      invariant forall j :: 0 <= j < i ==> KeyMapping[j].1 in record
      invariant forall c :: c in record ==> IsRenamed(c) && record[c] == Get(data, SourceKey(c))
    {
      var (aiKey, column) := KeyMapping[i];
      KeyMappingRow(i);
      record := record[column := Get(data, aiKey)];
    }
    forall c | IsRenamed(c) ensures c in record {
      var j := KeyMappingCovers(c);
    }
    RenamedRecordOf(record, data);
  }

  /** A record holding exactly the renamed columns, each copied from its
      source key, is the renamed record. */
  lemma RenamedRecordOf(record: map<Column, Value>, data: map<string, Value>)
    requires forall c :: c in record <==> IsRenamed(c)
    requires forall c :: c in record ==> record[c] == Get(data, SourceKey(c))
    ensures record == RenamedRecord(data)
  {
    var renamed := RenamedRecord(data);
    assert record.Keys == renamed.Keys;
    forall c | c in record ensures record[c] == renamed[c] {
    }
  }

  /** Two updates of a map are a union with a two-entry map. */
  lemma UpdateTwice<K, V>(m: map<K, V>, k1: K, v1: V, k2: K, v2: V)
    requires k1 != k2
    ensures m[k1 := v1][k2 := v2] == m + map[k1 := v1, k2 := v2]
  {
  }

  /** One update of a map is a union with a one-entry map. */
  lemma UpdateOnce<K, V>(m: map<K, V>, k: K, v: V)
    ensures m[k := v] == m + map[k := v]
  {
  }

  /** A union with the empty map changes nothing. */
  lemma UnionEmpty<K, V>(m: map<K, V>)
    ensures m + map[] == m
  {
  }

  /** The rename loop and the two splits, step by step as the tool does them. */
  method BuildRecord(data: map<string, Value>) returns (b: Built)
    ensures b.BirthSplitFailed? <==> BirthUnsplittable(data)
    ensures b.CreationSplitRaised? <==> !BirthUnsplittable(data) && CreationUnsplittable(data)
    ensures b.Built? <==> Splittable(data)
    ensures b.Built? ==> b.record == ExpectedRecord(data)
  {
    var record := RenameFields(data);
    ghost var renamed := record;

    if BirthKey in data && Truthy(data[BirthKey]) {
      var birth := data[BirthKey];
      if !birth.Str? {
        return BirthSplitFailed;
      }
      var parts := Split(birth.s, ',');
      SplitFirst(birth.s, ',');
      SplitMany(birth.s, ',');
      var place := Str(Strip(parts[0]));
      record := record[TempatLahir := place];
      var date;
      if |parts| > 1 {
        SplitSecond(birth.s, ',');
        date := Str(Strip(parts[1]));
        record := record[TanggalLahir := date];
      } else {
        date := NoneValue;
        record := record[TanggalLahir := date];
      }
      assert place == BirthPlace(birth.s) && date == BirthDate(birth.s);
      UpdateTwice(renamed, TempatLahir, place, TanggalLahir, date);
    } else {
      UnionEmpty(renamed);
    }
    ghost var withBirth := record;
    assert withBirth == renamed + BirthColumns(data);

    var creation := Get(record, PlaceOfCreation);
    assert creation == Get(data, CreationKey) by {
      assert PlaceOfCreation !in BirthColumns(data);
      assert renamed[PlaceOfCreation] == Get(data, CreationKey);
    }
    if Truthy(creation) {
      if !creation.Str? {
        return CreationSplitRaised;
      }
      var parts := Split(creation.s, ' ');
      SplitFirst(creation.s, ' ');
      SplitMany(creation.s, ' ');
      var place := Str(Strip(parts[0]));
      assert place == CreationPlace(creation.s);
      record := record[PlaceOfCreation := place];
      if |parts| > 1 {
        SplitRestJoin(creation.s, ' ');
        var date := Str(Strip(Join(parts[1..], " ")));
        assert date == CreationDate(creation.s);
        record := record[DateOfCreation := date];
        UpdateTwice(withBirth, PlaceOfCreation, place, DateOfCreation, date);
      } else {
        UpdateOnce(withBirth, PlaceOfCreation, place);
      }
    } else {
      UnionEmpty(withBirth);
    }
    assert record == withBirth + CreationColumns(data);
    b := Built(record);
  }

  /** `s` is `t` with some elements left out, order kept. */
  predicate IsSubsequence<T(==)>(s: seq<T>, t: seq<T>)
    decreases |t|
  {
    if s == [] then true
    else if t == [] then false
    else if s[0] == t[0] then IsSubsequence(s[1..], t[1..])
    else IsSubsequence(s, t[1..])
  }

  /** The keys among `keys` whose value in `record` is falsy, in `keys` order. */
  function FalsyAmong(keys: seq<Column>, record: map<Column, Value>): (missing: seq<Column>)
    ensures forall c :: c in missing <==> c in keys && !Truthy(Get(record, c))
    decreases |keys|
  {
    if keys == [] then []
    else if Truthy(Get(record, keys[0])) then FalsyAmong(keys[1..], record)
    else [keys[0]] + FalsyAmong(keys[1..], record)
  }

  /** `missing_keys`: the required columns whose value is falsy, in order. */
  function MissingKeys(record: map<Column, Value>): (missing: seq<Column>)
    ensures forall c :: c in missing <==> c in RequiredColumns && !Truthy(Get(record, c))
  {
    FalsyAmong(RequiredColumns, record)
  }

  /** The falsy keys are reported in the order of `keys`. */
  lemma {:induction false} FalsyAmongOrdered(keys: seq<Column>, record: map<Column, Value>)
    ensures IsSubsequence(FalsyAmong(keys, record), keys)
    decreases |keys|
  {
    if keys != [] {
      FalsyAmongOrdered(keys[1..], record);
    }
  }

  /** The missing columns are reported in the order of the required list. */
  lemma MissingKeysOrdered(record: map<Column, Value>)
    ensures IsSubsequence(MissingKeys(record), RequiredColumns)
  {
    FalsyAmongOrdered(RequiredColumns, record);
  }

  /** `', '.join` of the column names. */
  function ColumnList(cs: seq<Column>): string {
    if cs == [] then []
    else if |cs| == 1 then ColumnName(cs[0])
    else ColumnName(cs[0]) + ", " + ColumnList(cs[1..])
  }

  /** The error text the gate returns for the given missing columns. */
  function MissingError(missing: seq<Column>): string {
    MissingPrefix + ColumnList(missing)
  }

  /** The outcome of the mapping and validation part of the insert tool. */
  datatype Prepared =
    | Ready(record: map<Column, Value>)
    | Rejected(error: string)
    | Raised

  /** Build the record and apply the required-column gate: either a record with
      every required column truthy, or the error the tool returns. */
  method PrepareRecord(data: map<string, Value>) returns (p: Prepared)
    ensures BirthUnsplittable(data) ==> p == Rejected(BirthParseError)
    ensures !BirthUnsplittable(data) && CreationUnsplittable(data) ==> p == Raised
    ensures Splittable(data) && MissingKeys(ExpectedRecord(data)) != [] ==>
      p == Rejected(MissingError(MissingKeys(ExpectedRecord(data))))
    ensures Splittable(data) && MissingKeys(ExpectedRecord(data)) == [] ==>
      p == Ready(ExpectedRecord(data))
    ensures p.Ready? ==> forall c :: c in RequiredColumns ==> Truthy(Get(p.record, c))
  {
    var b := BuildRecord(data);
    match b {
      case BirthSplitFailed =>
        return Rejected(BirthParseError);
      case CreationSplitRaised =>
        return Raised;
      case Built(record) =>
        var missing := MissingKeys(record);
        if missing != [] {
          return Rejected(MissingError(missing));
        }
        return Ready(record);
    }
  }

  // ---------------------------------------------------------------------------
  // Properties of the mapping and the gate

  /** The columns outside the required list never cause a rejection. */
  lemma {:induction false} FalsyAmongIgnores(keys: seq<Column>, record: map<Column, Value>, c: Column, v: Value)
    requires c !in keys
    ensures FalsyAmong(keys, record[c := v]) == FalsyAmong(keys, record)
    decreases |keys|
  {
    if keys != [] {
      assert Get(record[c := v], keys[0]) == Get(record, keys[0]);
      FalsyAmongIgnores(keys[1..], record, c, v);
    }
  }

  /** Blood type and the two creation columns cannot change the gate's verdict. */
  lemma OptionalColumnsNeverReject(record: map<Column, Value>, c: Column, v: Value)
    requires c == GolDarah || c == PlaceOfCreation || c == DateOfCreation
    ensures MissingKeys(record[c := v]) == MissingKeys(record)
  {
    FalsyAmongIgnores(RequiredColumns, record, c, v);
  }

  /** Only the two creation columns come from the creation split. */
  lemma NotCreationColumn(data: map<string, Value>, d: Column)
    requires d != PlaceOfCreation && d != DateOfCreation
    ensures d !in CreationColumns(data)
  {
  }

  /** Only the two birth columns come from the birth split. */
  lemma NotBirthColumn(data: map<string, Value>, d: Column)
    requires d != TempatLahir && d != TanggalLahir
    ensures d !in BirthColumns(data)
  {
  }

  /** A renamed column other than the creation field holds a copy of its
      source key in the built record. */
  lemma ExpectedRenamed(data: map<string, Value>, d: Column)
    requires IsRenamed(d) && d != PlaceOfCreation
    ensures Get(ExpectedRecord(data), d) == Get(data, SourceKey(d))
  {
    var r, b, c := RenamedRecord(data), BirthColumns(data), CreationColumns(data);
    assert ExpectedRecord(data) == r + b + c;
    assert d in r && r[d] == Get(data, SourceKey(d));
    NotBirthColumn(data, d);
    NotCreationColumn(data, d);
  }

  /** The birth columns of the built record are those of the birth split. */
  lemma ExpectedBirth(data: map<string, Value>, d: Column)
    requires d == TempatLahir || d == TanggalLahir
    ensures d in ExpectedRecord(data) <==> d in BirthColumns(data)
    ensures Get(ExpectedRecord(data), d) == Get(BirthColumns(data), d)
  {
    var r, b, c := RenamedRecord(data), BirthColumns(data), CreationColumns(data);
    assert ExpectedRecord(data) == r + b + c;
    assert d !in r;
    NotCreationColumn(data, d);
  }

  /** What the built record holds in a required column. */
  lemma ExpectedRequired(data: map<string, Value>, d: Column)
    requires d in RequiredColumns
    ensures IsRenamed(d) ==> Get(ExpectedRecord(data), d) == Get(data, SourceKey(d))
    ensures !IsRenamed(d) ==> Get(ExpectedRecord(data), d) == Get(BirthColumns(data), d)
  {
    if IsRenamed(d) {
      ExpectedRenamed(data, d);
    } else {
      ExpectedBirth(data, d);
    }
  }

  /** A birth field without a comma is always rejected: its date is `None`. */
  lemma NoCommaRejected(data: map<string, Value>)
    requires HasBirth(data) && data[BirthKey].Str? && ',' !in data[BirthKey].s
    ensures Get(ExpectedRecord(data), TanggalLahir) == NoneValue
    ensures TanggalLahir in MissingKeys(ExpectedRecord(data))
  {
    ExpectedRequired(data, TanggalLahir);
  }

  /** Without a birth field neither birth column is set, so both are missing. */
  lemma NoBirthRejected(data: map<string, Value>)
    requires !HasBirth(data)
    ensures TempatLahir !in ExpectedRecord(data) && TanggalLahir !in ExpectedRecord(data)
    ensures TempatLahir in MissingKeys(ExpectedRecord(data))
    ensures TanggalLahir in MissingKeys(ExpectedRecord(data))
  {
    assert BirthColumns(data) == map[];
    ExpectedBirth(data, TempatLahir);
    ExpectedBirth(data, TanggalLahir);
    FalsyIsMissing(ExpectedRecord(data), TempatLahir);
    FalsyIsMissing(ExpectedRecord(data), TanggalLahir);
  }

  /** A falsy required column is reported by the gate. */
  lemma FalsyIsMissing(record: map<Column, Value>, d: Column)
    requires IsRequired(d) && !Truthy(Get(record, d))
    ensures d in MissingKeys(record)
  {
    RequiredColumnsAre(d);
  }

  /** No key is reported when every key is truthy. */
  lemma AllTruthyNoneMissing(keys: seq<Column>, record: map<Column, Value>)
    requires forall d :: d in keys ==> Truthy(Get(record, d))
    ensures FalsyAmong(keys, record) == []
  {
  }

  /** Only the falsy key is reported when every other key is truthy. */
  lemma {:induction false} FalsyAmongSingle(keys: seq<Column>, record: map<Column, Value>, c: Column)
    requires forall i, j :: 0 <= i < j < |keys| ==> keys[i] != keys[j]
    requires c in keys && !Truthy(Get(record, c))
    requires forall d :: d in keys && d != c ==> Truthy(Get(record, d))
    ensures FalsyAmong(keys, record) == [c]
    decreases |keys|
  {
    if keys[0] == c {
      forall d | d in keys[1..] ensures Truthy(Get(record, d)) {
        var j :| 0 <= j < |keys[1..]| && keys[1..][j] == d;
        assert keys[j + 1] == d;
      }
      AllTruthyNoneMissing(keys[1..], record);
    } else {
      FalsyAmongSingle(keys[1..], record, c);
    }
  }

  /** The birth split reads only the birth field. */
  lemma BirthDepends(data: map<string, Value>, data': map<string, Value>)
    requires Get(data, BirthKey) == Get(data', BirthKey)
    ensures BirthColumns(data) == BirthColumns(data')
    ensures BirthUnsplittable(data) == BirthUnsplittable(data')
  {
  }

  /** The creation split reads only the creation field. */
  lemma CreationDepends(data: map<string, Value>, data': map<string, Value>)
    requires Get(data, CreationKey) == Get(data', CreationKey)
    ensures CreationColumns(data) == CreationColumns(data')
    ensures CreationUnsplittable(data) == CreationUnsplittable(data')
  {
  }

  /** Removing a source key clears its column of the renamed record. */
  lemma RenamedWithout(data: map<string, Value>, c: Column)
    requires IsRenamed(c)
    ensures RenamedRecord(data - {SourceKey(c)}) == RenamedRecord(data)[c := NoneValue]
  {
    var data' := data - {SourceKey(c)};
    var lhs, rhs := RenamedRecord(data'), RenamedRecord(data)[c := NoneValue];
    assert lhs.Keys == rhs.Keys;
    forall d | d in lhs ensures lhs[d] == rhs[d] {
      if d != c {
        SourceKeysDistinct(c, d);
      }
    }
  }

  /** Removing a key no column is renamed from leaves the renamed record as it was. */
  lemma RenamedWithoutUnused(data: map<string, Value>, k: string)
    requires forall d :: IsRenamed(d) ==> SourceKey(d) != k
    ensures RenamedRecord(data - {k}) == RenamedRecord(data)
  {
  }

  /** No column is renamed from the birth field. */
  lemma BirthKeyUnused()
    ensures forall d :: IsRenamed(d) ==> SourceKey(d) != BirthKey
  {
    forall d | IsRenamed(d) ensures SourceKey(d) != BirthKey {
      SourceKeysDistinct(d, d);
    }
  }

  /** An update of a key the right operand lacks commutes with the union. */
  lemma UpdateBeforeUnion<K, V>(m: map<K, V>, n: map<K, V>, k: K, v: V)
    requires k !in n
    ensures m[k := v] + n == (m + n)[k := v]
  {
  }

  /** Removing keys that only the middle operand has drops that operand. */
  lemma RemoveMiddle<K, V>(m: map<K, V>, n: map<K, V>, p: map<K, V>, k1: K, k2: K)
    requires k1 !in m && k2 !in m && k1 !in p && k2 !in p
    requires forall k :: k in n ==> k == k1 || k == k2
    ensures (m + n + p) - {k1, k2} == m + p
  {
  }

  /** Removing the source key of a renamed column other than the creation field
      clears exactly that column of the built record. */
  lemma ExpectedWithoutSource(data: map<string, Value>, c: Column)
    requires IsRenamed(c) && c != PlaceOfCreation
    ensures ExpectedRecord(data - {SourceKey(c)}) == ExpectedRecord(data)[c := NoneValue]
    ensures Splittable(data - {SourceKey(c)}) == Splittable(data)
  {
    var data' := data - {SourceKey(c)};
    SourceKeysDistinct(c, PlaceOfCreation);
    RenamedWithout(data, c);
    BirthDepends(data, data');
    CreationDepends(data, data');
    var r, b, cc := RenamedRecord(data), BirthColumns(data), CreationColumns(data);
    NotBirthColumn(data, c);
    NotCreationColumn(data, c);
    UpdateBeforeUnion(r, b, c, NoneValue);
    UpdateBeforeUnion(r + b, cc, c, NoneValue);
  }

  /** Removing the birth field drops both birth columns of the built record. */
  lemma ExpectedWithoutBirth(data: map<string, Value>)
    ensures ExpectedRecord(data - {BirthKey}) == ExpectedRecord(data) - {TempatLahir, TanggalLahir}
    ensures Splittable(data - {BirthKey}) == !CreationUnsplittable(data)
  {
    var data' := data - {BirthKey};
    BirthKeyUnused();
    RenamedWithoutUnused(data, BirthKey);
    CreationDepends(data, data');
    var r, b, cc := RenamedRecord(data), BirthColumns(data), CreationColumns(data);
    assert BirthColumns(data') == map[];
    UnionEmpty(r);
    NotCreationColumn(data, TempatLahir);
    NotCreationColumn(data, TanggalLahir);
    RemoveMiddle(r, b, cc, TempatLahir, TanggalLahir);
  }

  /** The required columns are listed once each. */
  lemma RequiredDistinct()
    ensures forall i, j :: 0 <= i < j < |RequiredColumns| ==> RequiredColumns[i] != RequiredColumns[j]
  {
  }

  /** The gate names exactly one column when only that one is falsy. */
  lemma MissingOnly(record: map<Column, Value>, c: Column)
    requires IsRequired(c) && !Truthy(Get(record, c))
    requires forall d :: IsRequired(d) && d != c ==> Truthy(Get(record, d))
    ensures MissingKeys(record) == [c]
  {
    RequiredDistinct();
    RequiredColumnsAre(c);
    forall d | d in RequiredColumns && d != c ensures Truthy(Get(record, d)) {
      RequiredColumnsAre(d);
    }
    FalsyAmongSingle(RequiredColumns, record, c);
  }

  /** The gate reads a list of keys piece by piece. */
  lemma {:induction false} FalsyAmongAppend(a: seq<Column>, b: seq<Column>, record: map<Column, Value>)
    ensures FalsyAmong(a + b, record) == FalsyAmong(a, record) + FalsyAmong(b, record)
    decreases |a|
  {
    if a == [] {
      assert a + b == b;
    } else {
      var head := if Truthy(Get(record, a[0])) then [] else [a[0]];
      assert a == [a[0]] + a[1..];
      assert a + b == [a[0]] + (a[1..] + b);
      FalsyAmongCons(a[0], a[1..] + b, record);
      FalsyAmongCons(a[0], a[1..], record);
      FalsyAmongAppend(a[1..], b, record);
      Associative(head, FalsyAmong(a[1..], record), FalsyAmong(b, record));
    }
  }

  /** The gate on a key put in front of others. */
  lemma FalsyAmongCons(c: Column, keys: seq<Column>, record: map<Column, Value>)
    ensures FalsyAmong([c] + keys, record) ==
      (if Truthy(Get(record, c)) then [] else [c]) + FalsyAmong(keys, record)
  {
    assert ([c] + keys)[1..] == keys;
  }

  /** The columns of the gate, as a predicate. */
  predicate IsRequired(c: Column) {
    c != GolDarah && c != PlaceOfCreation && c != DateOfCreation
  }

  /** The gate's list holds exactly the required columns. */
  lemma RequiredColumnsAre(c: Column)
    ensures c in RequiredColumns <==> IsRequired(c)
  {
  }

  /** The gate names two adjacent keys, in order, when only they are falsy. */
  lemma FalsyAmongPair(pre: seq<Column>, a: Column, b: Column, post: seq<Column>, record: map<Column, Value>)
    requires forall d :: d in pre ==> Truthy(Get(record, d))
    requires forall d :: d in post ==> Truthy(Get(record, d))
    requires !Truthy(Get(record, a)) && !Truthy(Get(record, b))
    ensures FalsyAmong(pre + [a, b] + post, record) == [a, b]
  {
    FalsyAmongAppend(pre + [a, b], post, record);
    FalsyAmongAppend(pre, [a, b], record);
    AllTruthyNoneMissing(pre, record);
    AllTruthyNoneMissing(post, record);
    assert [a, b][1..] == [b] && [b][1..] == [];
    assert FalsyAmong([b], record) == [b];
    assert FalsyAmong([a, b], record) == [a, b];
  }

  /** The gate names both birth columns, in order, when only they are falsy. */
  lemma MissingBirthPair(record: map<Column, Value>)
    requires !Truthy(Get(record, TempatLahir)) && !Truthy(Get(record, TanggalLahir))
    requires forall d :: IsRequired(d) && d != TempatLahir && d != TanggalLahir ==> Truthy(Get(record, d))
    ensures MissingKeys(record) == [TempatLahir, TanggalLahir]
  {
    var pre := [Nik, Nama];
    var post := [JenisKelamin, Alamat, RtRw, KelDesa, Kecamatan, Agama,
                 StatusPerkawinan, Kewarganegaraan, BerlakuHingga];
    assert RequiredColumns == pre + [TempatLahir, TanggalLahir] + post;
    forall d | d in post ensures Truthy(Get(record, d)) {
      assert IsRequired(d) && d != TempatLahir && d != TanggalLahir;
    }
    FalsyAmongPair(pre, TempatLahir, TanggalLahir, post, record);
  }

  /** Clearing one required column of a record the gate accepts makes the gate
      name exactly that column. */
  lemma ClearingRequiredRejects(record: map<Column, Value>, c: Column)
    requires MissingKeys(record) == [] && IsRequired(c)
    ensures MissingKeys(record[c := NoneValue]) == [c]
  {
    AcceptedAll(record);
    ClearedOthersTruthy(record, c);
    MissingOnly(record[c := NoneValue], c);
  }

  /** Clearing one column leaves the other required columns truthy. */
  lemma ClearedOthersTruthy(record: map<Column, Value>, c: Column)
    requires forall d :: IsRequired(d) ==> Truthy(Get(record, d))
    ensures forall d :: IsRequired(d) && d != c ==> Truthy(Get(record[c := NoneValue], d))
  {
    forall d | IsRequired(d) && d != c ensures Truthy(Get(record[c := NoneValue], d)) {
      assert Get(record[c := NoneValue], d) == Get(record, d);
    }
  }

  /** A record the gate accepts has every required column truthy. */
  lemma AcceptedAll(record: map<Column, Value>)
    requires MissingKeys(record) == []
    ensures forall d :: IsRequired(d) ==> Truthy(Get(record, d))
  {
    forall d | IsRequired(d) ensures Truthy(Get(record, d)) {
      RequiredColumnsAre(d);
    }
  }

  /** `.get` on a map with two keys removed. */
  lemma GetRemoved<K>(m: map<K, Value>, k1: K, k2: K, k: K)
    ensures Get(m - {k1, k2}, k) == if k == k1 || k == k2 then NoneValue else Get(m, k)
  {
  }

  /** Dropping both birth columns of a record the gate accepts makes the gate
      name both. */
  lemma DroppingBirthRejects(record: map<Column, Value>)
    requires MissingKeys(record) == []
    ensures MissingKeys(record - {TempatLahir, TanggalLahir}) == [TempatLahir, TanggalLahir]
  {
    AcceptedAll(record);
    var record' := record - {TempatLahir, TanggalLahir};
    forall d | IsRequired(d) && d != TempatLahir && d != TanggalLahir
      ensures Truthy(Get(record', d))
    {
      GetRemoved(record, TempatLahir, TanggalLahir, d);
    }
    GetRemoved(record, TempatLahir, TanggalLahir, TempatLahir);
    GetRemoved(record, TempatLahir, TanggalLahir, TanggalLahir);
    MissingBirthPair(record');
  }

  /** All or nothing: removing one required field from an accepted input makes
      the gate reject it, naming exactly that column. */
  lemma RemovingRequiredFieldRejects(data: map<string, Value>, c: Column)
    requires Splittable(data) && MissingKeys(ExpectedRecord(data)) == []
    requires c in RequiredColumns && IsRenamed(c)
    ensures Splittable(data - {SourceKey(c)})
    ensures MissingKeys(ExpectedRecord(data - {SourceKey(c)})) == [c]
  {
    RequiredColumnsAre(c);
    ExpectedWithoutSource(data, c);
    ClearingRequiredRejects(ExpectedRecord(data), c);
  }

  /** Removing the birth field from an accepted input rejects it, naming both
      birth columns. */
  lemma RemovingBirthRejects(data: map<string, Value>)
    requires Splittable(data) && MissingKeys(ExpectedRecord(data)) == []
    ensures Splittable(data - {BirthKey})
    ensures MissingKeys(ExpectedRecord(data - {BirthKey})) == [TempatLahir, TanggalLahir]
  {
    ExpectedWithoutBirth(data);
    DroppingBirthRejects(ExpectedRecord(data));
  }

  /** The creation columns of the built record are those of the creation split,
      whenever the split sets them. */
  lemma ExpectedCreation(data: map<string, Value>, d: Column)
    requires d in CreationColumns(data)
    ensures Get(ExpectedRecord(data), d) == CreationColumns(data)[d]
  {
  }

  /** A birth field "place, date[, ...]" puts the stripped text before the first
      comma in `tempat_lahir` and the stripped text between the first and the
      second comma in `tanggal_lahir`. */
  lemma BirthSplitAtComma(data: map<string, Value>, place: string, rest: string)
    requires BirthKey in data && data[BirthKey] == Str(place + [','] + rest)
    requires ',' !in place
    ensures Get(ExpectedRecord(data), TempatLahir) == Str(Strip(place))
    ensures Get(ExpectedRecord(data), TanggalLahir) == Str(Strip(BeforeFirst(rest, ',')))
  {
    assert HasBirth(data);
    ExpectedBirthSplit(data);
    BirthFieldAtComma(place, rest);
  }

  /** The built record holds the two halves of a string birth field. */
  lemma ExpectedBirthSplit(data: map<string, Value>)
    requires HasBirth(data) && data[BirthKey].Str?
    ensures Get(ExpectedRecord(data), TempatLahir) == BirthPlace(data[BirthKey].s)
    ensures Get(ExpectedRecord(data), TanggalLahir) == BirthDate(data[BirthKey].s)
  {
    ExpectedBirth(data, TempatLahir);
    ExpectedBirth(data, TanggalLahir);
  }

  /** The birth split of "place, date[, ...]". */
  lemma BirthFieldAtComma(place: string, rest: string)
    requires ',' !in place
    ensures BirthPlace(place + [','] + rest) == Str(Strip(place))
    ensures BirthDate(place + [','] + rest) == Str(Strip(BeforeFirst(rest, ',')))
  {
    CutAtFirst(place, ',', rest);
  }

  /** A creation field "place date..." puts the stripped text before the first
      space in `place_of_creation` and all the rest, stripped, in
      `date_of_creation`. */
  lemma CreationSplitAtSpace(data: map<string, Value>, place: string, rest: string)
    requires Get(data, CreationKey) == Str(place + [' '] + rest)
    requires ' ' !in place
    ensures Get(ExpectedRecord(data), PlaceOfCreation) == Str(Strip(place))
    ensures Get(ExpectedRecord(data), DateOfCreation) == Str(Strip(rest))
  {
    CreationFieldAtSpace(place, rest);
    ExpectedCreation(data, PlaceOfCreation);
    ExpectedCreation(data, DateOfCreation);
  }

  /** The creation split of "place date...". */
  lemma CreationFieldAtSpace(place: string, rest: string)
    requires ' ' !in place
    ensures ' ' in place + [' '] + rest
    ensures CreationPlace(place + [' '] + rest) == Str(Strip(place))
    ensures CreationDate(place + [' '] + rest) == Str(Strip(rest))
  {
    CutAtFirst(place, ' ', rest);
  }

  // ---------------------------------------------------------------------------
  // The table of accepted records, keyed by the unique NIK

  /** The reply of the duplicate check: its status and the NIK it was asked about. */
  datatype NikCheck = NikCheck(status: string, nik: string)

  /** The reply of the insert tool. */
  datatype InsertReply =
    | Inserted(nik: Value)  // "status": "success", with a message naming the NIK
    | InsertFailed(error: string)  // "status": "error", with a message of the tool's own
    | DriverFailed  // "status": "error", with the driver's message for a parameter it cannot bind
    | InsertRaised  // the creation-field split raised out of the tool

  /** The text a `TEXT` column keeps for a bound value: a string as it is, and
      a number as its decimal text, which is the text `str()` gives for it.
      `None` binds as NULL, and a dictionary cannot be bound at all. */
  function StoredText(v: Value): Option<string> {
    match v
    case Str(s) => Some(s)
    case Opaque(text, _) => Some(text)
    case _ => None
  }

  /** The driver can bind every named parameter of the INSERT: each of the
      sixteen columns has a value, and none of them is a dictionary. */
  predicate Bindable(record: map<Column, Value>) {
    forall c: Column :: c in record && !record[c].Dict?
  }

  /** The NOT NULL columns of the table are exactly the required ones. */
  predicate NotNull(record: map<Column, Value>) {
    forall c: Column :: IsRequired(c) ==> Get(record, c) != NoneValue
  }

  /** A record the table takes unless its NIK is already stored. */
  predicate Storable(record: map<Column, Value>) {
    Bindable(record) && NotNull(record)
  }

  /** The text the NIK of a storable record is kept under. */
  function NikKey(record: map<Column, Value>): (k: string)
    requires Storable(record)
    ensures StoredText(record[Nik]) == Some(k)
    ensures record[Nik].Str? ==> k == record[Nik].s
    ensures record[Nik].Opaque? ==> k == record[Nik].text
    ensures record[Nik].Str? || record[Nik].Opaque?
  {
    assert IsRequired(Nik) && Nik in record;
    StoredText(record[Nik]).value
  }

  /** What the INSERT does to the table, keyed by the NIK's text. A parameter
      that cannot be bound fails in the driver. A NULL in a NOT NULL column and
      a NIK text already stored both break a constraint, and the tool reports
      either as a duplicate. Otherwise the row is added. */
  function InsertRow(rows: map<string, map<Column, Value>>, record: map<Column, Value>)
    : (InsertReply, map<string, map<Column, Value>>)
  {
    if !Bindable(record) then (DriverFailed, rows)
    else if !NotNull(record) || NikKey(record) in rows then (InsertFailed(DuplicateNikError), rows)
    else (Inserted(record[Nik]), rows[NikKey(record) := record])
  }

  /** Every row is storable and stored under the text of its own NIK. */
  ghost predicate KeyedByNik(rows: map<string, map<Column, Value>>) {
    forall k :: k in rows ==> Storable(rows[k]) && NikKey(rows[k]) == k
  }

  /** An insert keeps the table keyed by NIK and never drops or changes a row.
      It succeeds exactly for a storable record whose NIK text is new, and
      fails in the driver exactly when a parameter cannot be bound. */
  lemma InsertRowKeeps(rows: map<string, map<Column, Value>>, record: map<Column, Value>)
    requires KeyedByNik(rows)
    ensures var (reply, rows') := InsertRow(rows, record);
      && KeyedByNik(rows')
      && (reply == DriverFailed <==> !Bindable(record))
      && (reply.Inserted? <==> Storable(record) && NikKey(record) !in rows)
      && (reply.Inserted? ==> reply.nik == record[Nik] && rows' == rows[NikKey(record) := record])
      && (!reply.Inserted? ==> rows' == rows)
      && (reply.InsertFailed? ==> reply.error == DuplicateNikError)
  {
  }

  /** Two inserts whose NIKs have the same text, in either order: the second is
      always refused as a duplicate, and the first succeeds exactly when the
      text was new. */
  lemma SameNikRace(rows: map<string, map<Column, Value>>, r1: map<Column, Value>, r2: map<Column, Value>)
    requires Storable(r1) && Storable(r2) && NikKey(r1) == NikKey(r2)
    ensures var (a, rows1) := InsertRow(rows, r1); var (b, rows2) := InsertRow(rows1, r2);
      && b == InsertFailed(DuplicateNikError) && rows2 == rows1
      && (a.Inserted? <==> NikKey(r1) !in rows)
  {
  }

  /** A NIK that arrives as the number 3201 is stored under the text "3201": a
      later NIK "3201" given as text finds it and is refused. */
  lemma NumberAndTextNikCollide(rows: map<string, map<Column, Value>>, record: map<Column, Value>)
    requires Storable(record) && record[Nik] == Opaque("3201", true)
    ensures Storable(record[Nik := Str("3201")])
    ensures var (_, rows1) := InsertRow(rows, record);
      && "3201" in rows1
      && InsertRow(rows1, record[Nik := Str("3201")]).0 == InsertFailed(DuplicateNikError)
  {
  }

  /** Without a truthy creation string that holds a space, `date_of_creation`
      is never set, so its parameter is unbound and the driver refuses the
      insert: such a record is never stored. */
  lemma NoCreationDateNeverStored(rows: map<string, map<Column, Value>>, data: map<string, Value>)
    requires !(Truthy(Get(data, CreationKey)) && Get(data, CreationKey).Str? && ' ' in Get(data, CreationKey).s)
    ensures DateOfCreation !in ExpectedRecord(data)
    ensures InsertRow(rows, ExpectedRecord(data)) == (DriverFailed, rows)
  {
    NotBirthColumn(data, DateOfCreation);
  }

  /** The `id_cards` table, reduced to its rows keyed by the NIK's text. */
  class IdCardStore {
    var rows: map<string, map<Column, Value>>

    ghost predicate Valid()
      reads this
    {
      KeyedByNik(rows)
    }

    constructor ()
      ensures Valid() && rows == map[]
    {
      rows := map[];
    }

    /** `check_duplicate_nik_tool`: "duplicate" exactly when a row's NIK has
        the text asked about. */
    method CheckDuplicateNik(nik: string) returns (r: NikCheck)
      requires Valid()
      ensures r.nik == nik
      ensures r.status == "duplicate" <==> exists k :: k in rows && StoredText(rows[k][Nik]) == Some(nik)
      ensures r.status == "not_found" <==> nik !in rows
    {
      if nik in rows {
        assert StoredText(rows[nik][Nik]) == Some(nik);
        r := NikCheck("duplicate", nik);
      } else {
        r := NikCheck("not_found", nik);
      }
    }

    /** The INSERT itself: the driver binds the parameters, then the NOT NULL
        and UNIQUE constraints are checked. */
    method Insert(record: map<Column, Value>) returns (r: InsertReply)
      requires Valid()
      modifies this
      ensures Valid()
      ensures (r, rows) == InsertRow(old(rows), record)
    {
      InsertRowKeeps(rows, record);
      if !Bindable(record) {
        r := DriverFailed;
      } else if !NotNull(record) {
        r := InsertFailed(DuplicateNikError);
      } else {
        var nik := NikKey(record);
        if nik in rows {
          r := InsertFailed(DuplicateNikError);
        } else {
          rows := rows[nik := record];
          r := Inserted(record[Nik]);
        }
      }
    }

    /** `insert_id_card_tool`: map, split, validate, then insert. Only an input
        that passes the gate, and whose record the driver can bind, can change
        the table. */
    method InsertIdCard(data: map<string, Value>) returns (r: InsertReply)
      requires Valid()
      modifies this
      ensures Valid()
      ensures BirthUnsplittable(data) ==> r == InsertFailed(BirthParseError) && rows == old(rows)
      ensures !BirthUnsplittable(data) && CreationUnsplittable(data) ==>
        r == InsertRaised && rows == old(rows)
      ensures Splittable(data) && MissingKeys(ExpectedRecord(data)) != [] ==>
        r == InsertFailed(MissingError(MissingKeys(ExpectedRecord(data)))) && rows == old(rows)
      ensures Splittable(data) && MissingKeys(ExpectedRecord(data)) == [] ==>
        (r, rows) == InsertRow(old(rows), ExpectedRecord(data))
      ensures r.Inserted? ==>
        Splittable(data) && MissingKeys(ExpectedRecord(data)) == [] && Storable(ExpectedRecord(data))
    {
      var p := PrepareRecord(data);
      match p {
        case Rejected(error) =>
          r := InsertFailed(error);
        case Raised =>
          r := InsertRaised;
        case Ready(record) =>
          r := Insert(record);
          InsertRowKeeps(old(rows), record);
      }
    }
  }
}
