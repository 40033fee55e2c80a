/** The multipart form the page sends and how the route reads it back:
    `formData.get(key)` returns the first entry under `key`, read as a
    string, as a `parseFloat`ed number or as a file. Decoding, number
    parsing and number printing are foreign and come in as parameters. */
module Transport {
  import opened Common
  import opened Inputs

  /** What `append` was given: a string, a JavaScript number (sent as its
      `toString()`), or a file. */
  datatype EntryValue = Str(s: string) | Num(n: real) | Blob(file: File)
  datatype Entry = Entry(key: string, value: EntryValue)

  /** The foreign parts of reading a form back: `loadImage` on a file's
      bytes, `parseFloat` on a string, `Number.prototype.toString`. */
  datatype Env = Env(decode: File -> Option<Image>, parse: string -> Option<real>, render: real -> string)

  function Keys(payload: seq<Entry>): (ks: seq<string>)
    ensures |ks| == |payload| && forall k :: 0 <= k < |payload| ==> ks[k] == payload[k].key
  {
    seq(|payload|, k requires 0 <= k < |payload| => payload[k].key)
  }

  /** `formData.get(key)`: the value of the first entry under `key`, or
      nothing when no entry has that key. */
  function Lookup(payload: seq<Entry>, key: string): (r: Option<EntryValue>)
    ensures r.None? <==> forall k :: 0 <= k < |payload| ==> payload[k].key != key
    decreases |payload|
  {
    if |payload| == 0 then None
    else if payload[0].key == key then Some(payload[0].value)
    else
      assert forall k :: 1 <= k < |payload| ==> payload[k] == payload[1..][k - 1];
      Lookup(payload[1..], key)
  }

  /** Looking a key up in two payloads sent one after the other finds it in
      the first if it is there, else in the second. */
  lemma {:induction false} LookupAppend(xs: seq<Entry>, ys: seq<Entry>, key: string)
    ensures Lookup(xs + ys, key) == if Lookup(xs, key).Some? then Lookup(xs, key) else Lookup(ys, key)
    decreases |xs|
  {
    if |xs| > 0 {
      assert (xs + ys)[1..] == xs[1..] + ys;
      LookupAppend(xs[1..], ys, key);
    } else {
      assert xs + ys == ys;
    }
  }

  /** The first entry under a key is the one found. */
  lemma {:induction false} LookupFirst(payload: seq<Entry>, k: nat)
    requires k < |payload|
    requires forall j :: 0 <= j < k ==> payload[j].key != payload[k].key
    ensures Lookup(payload, payload[k].key) == Some(payload[k].value)
  {
    if k > 0 {
      assert payload[1..][k - 1] == payload[k];
      LookupFirst(payload[1..], k - 1);
    }
  }

  /** The key of a per-slot field, as `${field}${i}`. */
  function SlotKey(field: string, i: nat): string {
    field + NatText(i)
  }

  predicate EndsIn(key: string, c: char) {
    |key| > 0 && key[|key| - 1] == c
  }

  /** For a single-digit index the slot key ends in that digit. */
  lemma SlotKeyLastChar(field: string, i: nat)
    requires i < 10
    ensures |SlotKey(field, i)| == |field| + 1
    ensures SlotKey(field, i)[|field|] == DigitChar(i) && EndsIn(SlotKey(field, i), DigitChar(i))
  {
  }

  /** Keys of one slot differ when their fields do. */
  lemma SlotKeyInjective(f: string, g: string, i: nat)
    ensures SlotKey(f, i) == SlotKey(g, i) ==> f == g
  {
    if SlotKey(f, i) == SlotKey(g, i) {
      assert |f| == |g|;
      assert f == SlotKey(f, i)[..|f|];
      assert g == SlotKey(g, i)[..|g|];
    }
  }

  /** A key not ending in a digit is never a slot key. */
  lemma NotSlotKey(key: string, field: string, i: nat)
    requires i < 10
    requires |key| > 0 && !IsDigit(key[|key| - 1])
    ensures key != SlotKey(field, i)
  {
    SlotKeyLastChar(field, i);
  }

  /** Slot keys of different single-digit slots differ. */
  lemma SlotKeysOfOtherSlot(f: string, i: nat, g: string, j: nat)
    requires i < 10 && j < 10 && i != j
    ensures SlotKey(f, i) != SlotKey(g, j)
  {
    SlotKeyLastChar(f, i);
    SlotKeyLastChar(g, j);
    if |f| == |g| {
      assert DigitChar(i) != DigitChar(j);
    }
  }

  // ---------------------------------------------------------------------
  // Reading the fields back
  // ---------------------------------------------------------------------

  /** `formData.get(key) as string`: a file is read as its string
      conversion, a number as its printed text. */
  function ReadText(env: Env, v: Option<EntryValue>): (r: Option<string>)
    ensures r.None? <==> v.None?
    ensures v.Some? && v.value.Str? ==> r == Some(v.value.s)
  {
    match v
    case None => None
    case Some(Str(s)) => Some(s)
    case Some(Num(n)) => Some(env.render(n))
    case Some(Blob(_)) => Some("[object File]")
  }

  /** `parseFloat(formData.get(key))`: a number sent with `toString()`
      parses back to itself; null and a file parse to NaN. */
  function ReadNumber(env: Env, v: Option<EntryValue>): (r: Option<real>)
    ensures r.Some? ==> v.Some? && !v.value.Blob?
    ensures v.Some? && v.value.Num? ==> r == Some(v.value.n)
  {
    match v
    case None => None
    case Some(Str(s)) => env.parse(s)
    case Some(Num(n)) => Some(n)
    case Some(Blob(_)) => None
  }

  /** `formData.get(key) as File | null` used as a photo: a file decodes or
      not; a non-empty string is truthy but has no bytes, so reading it
      throws just like a failed decode; an empty string is falsy. */
  function ReadUpload(env: Env, v: Option<EntryValue>): (r: Option<Upload>)
    ensures r.None? <==> v.None? || v == Some(Str(""))
    ensures Decoded(r).Some? <==> v.Some? && v.value.Blob? && env.decode(v.value.file).Some?
  {
    match v
    case None => None
    case Some(Blob(f)) => Some(Upload(env.decode(f)))
    case Some(Str(s)) => if s == "" then None else Some(Upload(None))
    case Some(Num(_)) => Some(Upload(None))
  }

  /** Slot `i` as the route reads it: a text is missing exactly when its
      key was never sent, and only a file sent under `photo{i}` can be
      drawn. */
  function ReadSlot(env: Env, payload: seq<Entry>, i: nat): (r: SlotFields)
    ensures r.name.None? <==> forall k :: 0 <= k < |payload| ==> payload[k].key != SlotKey("name", i)
    ensures r.wardNumber.None? <==> forall k :: 0 <= k < |payload| ==> payload[k].key != SlotKey("wardNumber", i)
    ensures Decoded(r.photo).Some? ==> Lookup(payload, SlotKey("photo", i)).Some? && Lookup(payload, SlotKey("photo", i)).value.Blob?
  {
    SlotFields(
      ReadUpload(env, Lookup(payload, SlotKey("photo", i))),
      ReadText(env, Lookup(payload, SlotKey("name", i))),
      ReadText(env, Lookup(payload, SlotKey("designation", i))),
      ReadText(env, Lookup(payload, SlotKey("wardNumber", i))),
      ReadNumber(env, Lookup(payload, SlotKey("positionX", i))),
      ReadNumber(env, Lookup(payload, SlotKey("positionY", i))),
      ReadNumber(env, Lookup(payload, SlotKey("zoom", i))))
  }

  /** The request the route sees for a payload: the template id is missing
      exactly when no entry carries it, and only a file sent under `image`
      can be drawn. */
  function Receive(env: Env, payload: seq<Entry>): (r: Request)
    ensures r.templateId.None? <==> forall k :: 0 <= k < |payload| ==> payload[k].key != "templateId"
    ensures Decoded(r.image).Some? ==> Lookup(payload, "image").Some? && Lookup(payload, "image").value.Blob?
  {
    Request(
      ReadText(env, Lookup(payload, "templateId")),
      ReadText(env, Lookup(payload, "name")),
      ReadText(env, Lookup(payload, "designation")),
      ReadText(env, Lookup(payload, "ucNumber")),
      ReadText(env, Lookup(payload, "areaName")),
      ReadText(env, Lookup(payload, "wardNumber")),
      ReadUpload(env, Lookup(payload, "image")),
      ReadNumber(env, Lookup(payload, "positionX")),
      ReadNumber(env, Lookup(payload, "positionY")),
      ReadNumber(env, Lookup(payload, "zoom")),
      seq(GridSlotCount, i requires 0 <= i < GridSlotCount => ReadSlot(env, payload, i)))
  }

  lemma ReceiveSlot(env: Env, payload: seq<Entry>, i: nat)
    requires i < GridSlotCount
    ensures Receive(env, payload).slots[i] == ReadSlot(env, payload, i)
  {
  }
}
