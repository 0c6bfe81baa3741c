/**
 * The multipart body that `handleSubmit` assembles: the five text fields,
 * the two coordinates, the selected ids joined by commas and, when a file
 * was dropped, the image. Also the reading side: the first value under a
 * key, as `FormData.get` returns it, and a decoder that recovers the form
 * from a body.
 */
module Payload {
  import opened Wrappers
  import Contact

  /** A map coordinate, as the map widget reports it. */
  datatype LatLng = LatLng(lat: real, lng: real)

  /** The dropped file, treated as opaque binary data. */
  datatype File = File(name: string, bytes: seq<bv8>)

  /** One part of a multipart body: a text value or a file. */
  datatype Part = Text(text: string) | Blob(file: File)

  /** A named part, in the order it was appended. */
  type Entry = (string, Part)

  /** The keys of the parts that do not come from the contact record. */
  const LATITUDE_KEY := "latitude"
  const LONGITUDE_KEY := "longitude"
  const ITEMS_KEY := "items"
  const IMAGE_KEY := "image"

  /** The keys of the always-present parts, in the order they are appended. */
  const TEXT_KEYS: seq<string> := [
    Contact.Key(Contact.Name), Contact.Key(Contact.Email), Contact.Key(Contact.Whatsapp),
    Contact.Key(Contact.Uf), Contact.Key(Contact.City), LATITUDE_KEY, LONGITUDE_KEY, ITEMS_KEY]

  // ---- decimal rendering of ids -------------------------------------------

  predicate IsDigit(c: char) {
    '0' <= c <= '9'
  }

  predicate AllDigits(s: string) {
    forall i :: 0 <= i < |s| ==> IsDigit(s[i])
  }

  function DigitChar(d: nat): (c: char)
    requires d < 10
    ensures IsDigit(c)
  {
    ('0' as int + d) as char
  }

  function DigitValue(c: char): nat
    requires IsDigit(c)
  {
    c as int - '0' as int
  }

  /** The decimal digits of a natural number, without leading zeros. */
  function NatToDecimal(n: nat): (s: string)
    ensures |s| > 0 && AllDigits(s)
    ensures |s| > 1 ==> s[0] != '0'
  {
    if n < 10 then [DigitChar(n)]
    else NatToDecimal(n / 10) + [DigitChar(n % 10)]
  }

  /** The number a nonempty string of digits denotes. */
  function DecimalValue(s: string): nat
    requires |s| > 0 && AllDigits(s)
  {
    if |s| == 1 then DigitValue(s[0])
    else 10 * DecimalValue(s[..|s| - 1]) + DigitValue(s[|s| - 1])
  }

  /** `String(id)` for an integral id: an optional minus sign, then the digits. */
  function IdToString(n: int): (s: string)
    ensures |s| > 0 && ',' !in s
  {
    if n < 0 then "-" + NatToDecimal(-n) else NatToDecimal(n)
  }

  /** Reads back an id written by `IdToString`. */
  function ParseId(s: string): Option<int>
  {
    if |s| > 1 && s[0] == '-' && AllDigits(s[1..]) then Some(0 - DecimalValue(s[1..]))
    else if |s| > 0 && AllDigits(s) then Some(DecimalValue(s))
    else None
  }

  lemma {:induction false} DecimalRoundTrip(n: nat)
    ensures DecimalValue(NatToDecimal(n)) == n
  {
    if n >= 10 {
      var s := NatToDecimal(n);
      assert s[..|s| - 1] == NatToDecimal(n / 10);
      DecimalRoundTrip(n / 10);
    }
  }

  /** Every id is recovered from its decimal rendering. */
  lemma IdRoundTrip(n: int)
    ensures ParseId(IdToString(n)) == Some(n)
  {
    if n < 0 {
      var s := IdToString(n);
      assert s[1..] == NatToDecimal(-n);
      DecimalRoundTrip(-n);
    } else {
      DecimalRoundTrip(n);
    }
  }

  // ---- join and split on "," ----------------------------------------------

  /** `parts.join(",")`. */
  function Join(parts: seq<string>): (r: string)
    ensures |parts| > 0 && parts[0] != "" ==> |r| > 0 && r[0] == parts[0][0]
    ensures |parts| > 0 && parts[|parts| - 1] != "" ==>
      |r| > 0 && r[|r| - 1] == parts[|parts| - 1][|parts[|parts| - 1]| - 1]
  {
    if |parts| == 0 then ""
    else if |parts| == 1 then parts[0]
    else parts[0] + "," + Join(parts[1..])
  }

  /** `s.split(",")`: the pieces between commas, one more than there are commas. */
  function Split(s: string): (r: seq<string>)
    ensures |r| > 0
  {
    if |s| == 0 then [""]
    else
      var rest := Split(s[1..]);
      if s[0] == ',' then [""] + rest else [[s[0]] + rest[0]] + rest[1..]
  }

  lemma {:induction false} SplitNoComma(p: string)
    requires ',' !in p
    ensures Split(p) == [p]
  {
    if |p| > 0 {
      assert ',' !in p[1..];
      SplitNoComma(p[1..]);
      assert [p[0]] + p[1..] == p;
    }
  }

  lemma {:induction false} SplitAfterComma(p: string, t: string)
    requires ',' !in p
    ensures Split(p + "," + t) == [p] + Split(t)
  {
    if |p| == 0 {
      assert p + "," + t == [','] + t;
      assert (p + "," + t)[1..] == t;
    } else {
      var s := p + "," + t;
      assert s[0] == p[0];
      assert s[1..] == p[1..] + "," + t;
      assert ',' !in p[1..];
      SplitAfterComma(p[1..], t);
      assert [p[0]] + p[1..] == p;
    }
  }

  /** Splitting undoes joining when no piece holds a comma. */
  lemma {:induction false} SplitJoin(parts: seq<string>)
    requires |parts| > 0
    requires forall i :: 0 <= i < |parts| ==> ',' !in parts[i]
    ensures Split(Join(parts)) == parts
  {
    if |parts| == 1 {
      SplitNoComma(parts[0]);
    } else {
      SplitJoin(parts[1..]);
      SplitAfterComma(parts[0], Join(parts[1..]));
    }
  }

  // ---- the items part -----------------------------------------------------

  function Rendered(ids: seq<int>): (r: seq<string>)
    ensures |r| == |ids|
    ensures forall i :: 0 <= i < |r| ==> r[i] == IdToString(ids[i])
  {
    if |ids| == 0 then [] else [IdToString(ids[0])] + Rendered(ids[1..])
  }

  /** `items.join(",")`: the ids in selection order, comma-separated, with no stray separator. */
  function ItemsText(ids: seq<int>): (r: string)
    ensures r == "" <==> ids == []
    ensures ids != [] ==> r[0] != ',' && r[|r| - 1] != ','
  {
    Join(Rendered(ids))
  }

  function ParseAll(parts: seq<string>): Option<seq<int>>
  {
    if |parts| == 0 then Some([])
    else
      var id :- ParseId(parts[0]);
      var rest :- ParseAll(parts[1..]);
      Some([id] + rest)
  }

  /** Reads the ids back out of an items part. */
  function ParseItems(s: string): Option<seq<int>>
  {
    if s == "" then Some([]) else ParseAll(Split(s))
  }

  lemma {:induction false} ParseAllRendered(ids: seq<int>)
    ensures ParseAll(Rendered(ids)) == Some(ids)
  {
    if |ids| > 0 {
      var r := Rendered(ids);
      assert r[0] == IdToString(ids[0]);
      IdRoundTrip(ids[0]);
      assert r[1..] == Rendered(ids[1..]);
      ParseAllRendered(ids[1..]);
      assert ParseAll(r) == Some([ids[0]] + ids[1..]);
      assert [ids[0]] + ids[1..] == ids;
    }
  }

  /** The items part determines the selection, order included. */
  lemma ItemsRoundTrip(ids: seq<int>)
    ensures ParseItems(ItemsText(ids)) == Some(ids)
  {
    if ids != [] {
      SplitJoin(Rendered(ids));
      ParseAllRendered(ids);
    }
  }

  // ---- the body -----------------------------------------------------------

  /**
   * The parts `handleSubmit` appends, in its order. `show` is the engine's
   * number-to-string conversion, applied to the two coordinates.
   */
  function Build(form: Contact.ContactData, pos: LatLng, ids: seq<int>, file: Option<File>, show: real -> string): (r: seq<Entry>)
    ensures |r| == |TEXT_KEYS| + (if file.Some? then 1 else 0)
    ensures forall i :: 0 <= i < |r| ==> (r[i].1.Blob? <==> i == |TEXT_KEYS|)
    ensures file.Some? ==> r[|TEXT_KEYS|].1 == Blob(file.value)
  {
    [ (Contact.Key(Contact.Name), Text(form.name)),
      (Contact.Key(Contact.Email), Text(form.email)),
      (Contact.Key(Contact.Whatsapp), Text(form.whatsapp)),
      (Contact.Key(Contact.Uf), Text(form.uf)),
      (Contact.Key(Contact.City), Text(form.city)),
      (LATITUDE_KEY, Text(show(pos.lat))),
      (LONGITUDE_KEY, Text(show(pos.lng))),
      (ITEMS_KEY, Text(ItemsText(ids))) ]
    + (if file.Some? then [(IMAGE_KEY, Blob(file.value))] else [])
  }

  function Names(p: seq<Entry>): (r: seq<string>)
    ensures |r| == |p|
    ensures forall i :: 0 <= i < |p| ==> r[i] == p[i].0
  {
    if |p| == 0 then [] else [p[0].0] + Names(p[1..])
  }

  /** `FormData.get(key)`: the first part appended under `key`. */
  function Lookup(p: seq<Entry>, key: string): Option<Part>
  {
    if |p| == 0 then None
    else if p[0].0 == key then Some(p[0].1)
    else Lookup(p[1..], key)
  }

  /** The parts come in the fixed order, and an image part comes last exactly when a file is attached. */
  lemma BuildOrder(form: Contact.ContactData, pos: LatLng, ids: seq<int>, file: Option<File>, show: real -> string)
    ensures Names(Build(form, pos, ids, file, show)) == TEXT_KEYS + (if file.Some? then [IMAGE_KEY] else [])
    ensures IMAGE_KEY in Names(Build(form, pos, ids, file, show)) <==> file.Some?
  {
  }

  /** A key under which nothing was appended reads back nothing. */
  lemma {:induction false} LookupMissing(p: seq<Entry>, key: string)
    requires forall j :: 0 <= j < |p| ==> p[j].0 != key
    ensures Lookup(p, key) == None
  {
    if |p| > 0 {
      LookupMissing(p[1..], key);
    }
  }

  /** The first part under `key` is the one `Lookup` returns. */
  lemma {:induction false} LookupAt(p: seq<Entry>, i: nat, key: string)
    requires i < |p| && p[i].0 == key
    requires forall j :: 0 <= j < i ==> p[j].0 != key
    ensures Lookup(p, key) == Some(p[i].1)
  {
    if i > 0 {
      LookupAt(p[1..], i - 1, key);
    }
  }

  /** The text value a body carries under `key`, if any. */
  function TextOf(p: seq<Entry>, key: string): Option<string>
  {
    match Lookup(p, key)
    case Some(Text(t)) => Some(t)
    case _ => None
  }

  /** What a receiver recovers from a body: the record, the ids and the file. */
  datatype Submission = Submission(form: Contact.ContactData, ids: seq<int>, file: Option<File>)

  function Decode(p: seq<Entry>): Option<Submission>
  {
    var name :- TextOf(p, Contact.Key(Contact.Name));
    var email :- TextOf(p, Contact.Key(Contact.Email));
    var whatsapp :- TextOf(p, Contact.Key(Contact.Whatsapp));
    var city :- TextOf(p, Contact.Key(Contact.City));
    var uf :- TextOf(p, Contact.Key(Contact.Uf));
    var items :- TextOf(p, ITEMS_KEY);
    var ids :- ParseItems(items);
    var file := match Lookup(p, IMAGE_KEY) case Some(Blob(f)) => Some(f) case _ => None;
    Some(Submission(Contact.ContactData(name, email, whatsapp, city, uf), ids, file))
  }

  /** Each of the five form keys reads back its field. */
  lemma BuildLookupField(form: Contact.ContactData, pos: LatLng, ids: seq<int>, file: Option<File>, show: real -> string, f: Contact.Field)
    ensures Lookup(Build(form, pos, ids, file, show), Contact.Key(f)) == Some(Text(Contact.Get(form, f)))
  {
    var p := Build(form, pos, ids, file, show);
    match f
    case Name => LookupAt(p, 0, Contact.Key(f));
    case Email => LookupAt(p, 1, Contact.Key(f));
    case Whatsapp => LookupAt(p, 2, Contact.Key(f));
    case Uf => LookupAt(p, 3, Contact.Key(f));
    case City => LookupAt(p, 4, Contact.Key(f));
  }

  /** The coordinate keys read back the rendered position. */
  lemma BuildLookupPosition(form: Contact.ContactData, pos: LatLng, ids: seq<int>, file: Option<File>, show: real -> string)
    ensures Lookup(Build(form, pos, ids, file, show), LATITUDE_KEY) == Some(Text(show(pos.lat)))
    ensures Lookup(Build(form, pos, ids, file, show), LONGITUDE_KEY) == Some(Text(show(pos.lng)))
  {
    var p := Build(form, pos, ids, file, show);
    LookupAt(p, 5, LATITUDE_KEY);
    LookupAt(p, 6, LONGITUDE_KEY);
  }

  /** The items key reads back the joined ids. */
  lemma BuildLookupItems(form: Contact.ContactData, pos: LatLng, ids: seq<int>, file: Option<File>, show: real -> string)
    ensures Lookup(Build(form, pos, ids, file, show), ITEMS_KEY) == Some(Text(ItemsText(ids)))
  {
    LookupAt(Build(form, pos, ids, file, show), 7, ITEMS_KEY);
  }

  /** The image key reads back the attached file, and nothing when there is none. */
  lemma BuildLookupImage(form: Contact.ContactData, pos: LatLng, ids: seq<int>, file: Option<File>, show: real -> string)
    ensures Lookup(Build(form, pos, ids, file, show), IMAGE_KEY) == if file.Some? then Some(Blob(file.value)) else None
  {
    var p := Build(form, pos, ids, file, show);
    assert forall j :: 0 <= j < 8 ==> p[j].0 == TEXT_KEYS[j];
    if file.Some? {
      LookupAt(p, 8, IMAGE_KEY);
    } else {
      LookupMissing(p, IMAGE_KEY);
    }
  }

  /** The body determines the record, the selection and the file. */
  lemma DecodeBuild(form: Contact.ContactData, pos: LatLng, ids: seq<int>, file: Option<File>, show: real -> string)
    ensures Decode(Build(form, pos, ids, file, show)) == Some(Submission(form, ids, file))
  {
    BuildLookupField(form, pos, ids, file, show, Contact.Name);
    BuildLookupField(form, pos, ids, file, show, Contact.Email);
    BuildLookupField(form, pos, ids, file, show, Contact.Whatsapp);
    BuildLookupField(form, pos, ids, file, show, Contact.City);
    BuildLookupField(form, pos, ids, file, show, Contact.Uf);
    BuildLookupItems(form, pos, ids, file, show);
    BuildLookupImage(form, pos, ids, file, show);
    ItemsRoundTrip(ids);
  }
}
