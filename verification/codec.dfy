/** The serialisation of a journal entry to the bytes of its file. The program uses
    `encoding/json` (`MarshalIndent` when saving, `Unmarshal` when reading); this model
    replaces it with a self-delimiting byte codec whose only promised property, as for
    JSON, is that decoding what was encoded gives back the same entry. Naturals are
    little-endian base-128 varints, characters are varints of their code point, strings
    are length-prefixed, enumerations are varints of their index, and a record is the
    list of its fields in declaration order. Every encoder takes the bytes that follow
    (`tail`), so a record's encoding is its fields' encodings nested in order. Bytes a
    decoder cannot read make it fail, like a malformed JSON document. */
module Codec {
  import opened Wrappers
  import opened MockFs
  import opened Entries

  /** A decoder reads a value from the front of the bytes and returns the rest. */
  type Decoded<T> = Option<(T, Bytes)>

  // ---- naturals ----

  function EncNat(n: nat, tail: Bytes): (bs: Bytes)
    ensures |bs| > |tail|
    decreases n
  {
    if n < 128 then [n] + tail else [128 + n % 128] + EncNat(n / 128, tail)
  }

  function DecNat(bs: Bytes): (r: Decoded<nat>)
    ensures r.Some? ==> |r.value.1| < |bs|
    decreases |bs|
  {
    if |bs| == 0 then None
    else if bs[0] < 128 then Some((bs[0], bs[1..]))
    else
      var p :- DecNat(bs[1..]);
      Some((bs[0] - 128 + 128 * p.0, p.1))
  }

  lemma {:induction false} NatRoundTrip(n: nat, tail: Bytes)
    ensures DecNat(EncNat(n, tail)) == Some((n, tail))
    decreases n
  {
    var bs := EncNat(n, tail);
    if n >= 128 {
      assert bs[1..] == EncNat(n / 128, tail);
      NatRoundTrip(n / 128, tail);
    } else {
      assert bs[1..] == tail;
    }
  }

  // ---- characters and strings ----

  predicate ValidCodePoint(n: nat) {
    n < 0xD800 || 0xE000 <= n < 0x11_0000
  }

  function EncChars(s: string, tail: Bytes): (bs: Bytes)
    decreases |s|
  {
    if s == [] then tail else EncNat(s[0] as int, EncChars(s[1..], tail))
  }

  function DecChars(k: nat, bs: Bytes): (r: Decoded<string>)
    ensures r.Some? ==> |r.value.0| == k && |r.value.1| <= |bs|
    decreases k
  {
    if k == 0 then Some(([], bs))
    else
      var p :- DecNat(bs);
      if !ValidCodePoint(p.0) then None
      else
        var q :- DecChars(k - 1, p.1);
        Some(([p.0 as char] + q.0, q.1))
  }

  lemma {:induction false} CharsRoundTrip(s: string, tail: Bytes)
    ensures DecChars(|s|, EncChars(s, tail)) == Some((s, tail))
    decreases |s|
  {
    if s != [] {
      var c := s[0] as int;
      assert ValidCodePoint(c);
      var rest := EncChars(s[1..], tail);
      NatRoundTrip(c, rest);
      assert DecNat(EncChars(s, tail)) == Some((c, rest));
      CharsRoundTrip(s[1..], tail);
      assert [c as char] + s[1..] == s;
    }
  }

  function EncString(s: string, tail: Bytes): Bytes {
    EncNat(|s|, EncChars(s, tail))
  }

  function DecString(bs: Bytes): (r: Decoded<string>)
  {
    var p :- DecNat(bs);
    DecChars(p.0, p.1)
  }

  lemma StringRoundTrip(s: string, tail: Bytes)
    ensures DecString(EncString(s, tail)) == Some((s, tail))
  {
    NatRoundTrip(|s|, EncChars(s, tail));
    CharsRoundTrip(s, tail);
  }

  // ---- records as field lists ----

  /** A record is written as the list of its scalar fields, like the members of a JSON
      object in declaration order. */
  datatype Field = NatField(n: nat) | StrField(s: string)

  datatype Kind = NatKind | StrKind

  function KindOf(f: Field): Kind {
    if f.NatField? then NatKind else StrKind
  }

  function Kinds(fs: seq<Field>): (ks: seq<Kind>)
    ensures |ks| == |fs|
    decreases |fs|
  {
    if fs == [] then [] else [KindOf(fs[0])] + Kinds(fs[1..])
  }

  function EncField(f: Field, tail: Bytes): Bytes {
    match f
    case NatField(n) => EncNat(n, tail)
    case StrField(s) => EncString(s, tail)
  }

  function DecField(k: Kind, bs: Bytes): Decoded<Field> {
    match k
    case NatKind =>
      var p :- DecNat(bs);
      Some((NatField(p.0), p.1))
    case StrKind =>
      var p :- DecString(bs);
      Some((StrField(p.0), p.1))
  }

  lemma FieldRoundTrip(f: Field, tail: Bytes)
    ensures DecField(KindOf(f), EncField(f, tail)) == Some((f, tail))
  {
    match f
    case NatField(n) => NatRoundTrip(n, tail);
    case StrField(s) => StringRoundTrip(s, tail);
  }

  function EncFields(fs: seq<Field>, tail: Bytes): Bytes
    decreases |fs|
  {
    if fs == [] then tail else EncField(fs[0], EncFields(fs[1..], tail))
  }

  /** Reads one field of each kind of `ks`, in order. */
  function DecFields(ks: seq<Kind>, bs: Bytes): (r: Decoded<seq<Field>>)
    ensures r.Some? ==> |r.value.0| == |ks|
    decreases |ks|
  {
    if ks == [] then Some(([], bs))
    else
      var p :- DecField(ks[0], bs);
      var q :- DecFields(ks[1..], p.1);
      Some(([p.0] + q.0, q.1))
  }

  lemma {:induction false} FieldsRoundTrip(fs: seq<Field>, tail: Bytes)
    ensures DecFields(Kinds(fs), EncFields(fs, tail)) == Some((fs, tail))
    decreases |fs|
  {
    if fs != [] {
      var rest := EncFields(fs[1..], tail);
      FieldRoundTrip(fs[0], rest);
      FieldsRoundTrip(fs[1..], tail);
      var ks := Kinds(fs);
      assert ks[0] == KindOf(fs[0]) && ks[1..] == Kinds(fs[1..]);
      assert [fs[0]] + fs[1..] == fs;
    }
  }

  function AsNat(f: Field): Option<nat> {
    if f.NatField? then Some(f.n) else None
  }

  function AsString(f: Field): Option<string> {
    if f.StrField? then Some(f.s) else None
  }

  // ---- steps ----

  const StepKinds: seq<Kind> := [NatKind, NatKind, StrKind, StrKind, StrKind, StrKind, StrKind, NatKind, NatKind]

  function StepFields(s: Step): seq<Field> {
    [NatField(s.stepType.Index()), NatField(s.status.Index()), StrField(s.error), StrField(s.description),
     StrField(s.source), StrField(s.target), StrField(s.details), NatField(s.startTime), NatField(s.endTime)]
  }

  /** The step a field list describes; an enumeration index out of range is rejected. */
  function StepFromFields(fs: seq<Field>): (r: Option<Step>)
    ensures forall s :: fs == StepFields(s) ==> r == Some(s)
  {
    if |fs| != 9 then None
    else
      var t :- AsNat(fs[0]);
      var stepType :- StepTypeFromIndex(t);
      var st :- AsNat(fs[1]);
      var status :- StepStatusFromIndex(st);
      var err :- AsString(fs[2]);
      var desc :- AsString(fs[3]);
      var src :- AsString(fs[4]);
      var tgt :- AsString(fs[5]);
      var det :- AsString(fs[6]);
      var t0 :- AsNat(fs[7]);
      var t1 :- AsNat(fs[8]);
      Some(Step(stepType, status, err, desc, src, tgt, det, t0, t1))
  }

  function EncStep(s: Step, tail: Bytes): Bytes {
    EncFields(StepFields(s), tail)
  }

  function DecStep(bs: Bytes): Decoded<Step> {
    var p :- DecFields(StepKinds, bs);
    var s :- StepFromFields(p.0);
    Some((s, p.1))
  }

  lemma StepRoundTrip(s: Step, tail: Bytes)
    ensures DecStep(EncStep(s, tail)) == Some((s, tail))
  {
    FieldsRoundTrip(StepFields(s), tail);
    KindsOfStep(s);
  }

  lemma KindsOfStep(s: Step)
    ensures Kinds(StepFields(s)) == StepKinds
  {
    var fs := StepFields(s);
    assert Kinds(fs) == [KindOf(fs[0])] + Kinds(fs[1..]);
    assert Kinds(fs[1..]) == [KindOf(fs[1])] + Kinds(fs[2..]);
    assert Kinds(fs[2..]) == [KindOf(fs[2])] + Kinds(fs[3..]);
    assert Kinds(fs[3..]) == [KindOf(fs[3])] + Kinds(fs[4..]);
    assert Kinds(fs[4..]) == [KindOf(fs[4])] + Kinds(fs[5..]);
    assert Kinds(fs[5..]) == [KindOf(fs[5])] + Kinds(fs[6..]);
    assert Kinds(fs[6..]) == [KindOf(fs[6])] + Kinds(fs[7..]);
    assert Kinds(fs[7..]) == [KindOf(fs[7])] + Kinds(fs[8..]);
    assert Kinds(fs[8..]) == [KindOf(fs[8])] + Kinds(fs[9..]);
  }

  /** A counted run of values, each encoded by `enc`; the count itself is stored elsewhere. */
  function EncList<T>(xs: seq<T>, enc: (T, Bytes) -> Bytes, tail: Bytes): Bytes
    decreases |xs|
  {
    if xs == [] then tail else enc(xs[0], EncList(xs[1..], enc, tail))
  }

  function DecList<T>(k: nat, dec: Bytes -> Decoded<T>, bs: Bytes): (r: Decoded<seq<T>>)
    ensures r.Some? ==> |r.value.0| == k
    decreases k
  {
    if k == 0 then Some(([], bs))
    else
      var p :- dec(bs);
      var q :- DecList(k - 1, dec, p.1);
      Some(([p.0] + q.0, q.1))
  }

  lemma {:induction false} ListRoundTrip<T>(xs: seq<T>, enc: (T, Bytes) -> Bytes, dec: Bytes -> Decoded<T>, tail: Bytes)
    requires forall x, t :: dec(enc(x, t)) == Some((x, t))
    ensures DecList(|xs|, dec, EncList(xs, enc, tail)) == Some((xs, tail))
    decreases |xs|
  {
    if xs != [] {
      ListRoundTrip(xs[1..], enc, dec, tail);
      assert [xs[0]] + xs[1..] == xs;
    }
  }

  function EncSteps(ss: seq<Step>, tail: Bytes): Bytes {
    EncList(ss, EncStep, tail)
  }

  function DecSteps(k: nat, bs: Bytes): (r: Decoded<seq<Step>>)
    ensures r.Some? ==> |r.value.0| == k
  {
    DecList(k, DecStep, bs)
  }

  lemma StepsRoundTrip(ss: seq<Step>, tail: Bytes)
    ensures DecSteps(|ss|, EncSteps(ss, tail)) == Some((ss, tail))
  {
    forall s, t ensures DecStep(EncStep(s, t)) == Some((s, t)) {
      StepRoundTrip(s, t);
    }
    ListRoundTrip(ss, EncStep, DecStep, tail);
  }

  // ---- entries ----

  /** The scalar fields of an entry, ending with the number of steps that follow. */
  const EntryKinds: seq<Kind> := [StrKind, NatKind, NatKind, StrKind, StrKind, NatKind, StrKind, NatKind]

  function EntryFields(e: Entry): seq<Field> {
    [StrField(e.id), NatField(e.timestamp), NatField(e.operation.Index()), StrField(e.source),
     StrField(e.target), NatField(e.state.Index()), StrField(e.checksum), NatField(|e.steps|)]
  }

  /** The entry a field list and its steps describe; the step count must match. */
  function EntryFromFields(fs: seq<Field>, steps: seq<Step>): (r: Option<Entry>)
    ensures forall e :: fs == EntryFields(e) && steps == e.steps ==> r == Some(e)
  {
    if |fs| != 8 then None
    else
      var id :- AsString(fs[0]);
      var ts :- AsNat(fs[1]);
      var o :- AsNat(fs[2]);
      var op :- OperationTypeFromIndex(o);
      var src :- AsString(fs[3]);
      var tgt :- AsString(fs[4]);
      var st :- AsNat(fs[5]);
      var state :- EntryStateFromIndex(st);
      var sum :- AsString(fs[6]);
      var n :- AsNat(fs[7]);
      if n != |steps| then None
      else Some(Entry(id, ts, op, src, tgt, state, sum, steps))
  }

  function EncEntry(e: Entry, tail: Bytes): Bytes {
    EncFields(EntryFields(e), EncSteps(e.steps, tail))
  }

  function DecEntry(bs: Bytes): (r: Decoded<Entry>)
  {
    var p :- DecFields(EntryKinds, bs);
    var n :- if |p.0| == 8 then AsNat(p.0[7]) else None;
    var q :- DecSteps(n, p.1);
    var e :- EntryFromFields(p.0, q.0);
    Some((e, q.1))
  }

  lemma EntryRoundTrip(e: Entry, tail: Bytes)
    ensures DecEntry(EncEntry(e, tail)) == Some((e, tail))
  {
    var rest := EncSteps(e.steps, tail);
    FieldsRoundTrip(EntryFields(e), rest);
    KindsOfEntry(e);
    StepsRoundTrip(e.steps, tail);
  }

  lemma KindsOfEntry(e: Entry)
    ensures Kinds(EntryFields(e)) == EntryKinds
  {
    var fs := EntryFields(e);
    assert Kinds(fs) == [KindOf(fs[0])] + Kinds(fs[1..]);
    assert Kinds(fs[1..]) == [KindOf(fs[1])] + Kinds(fs[2..]);
    assert Kinds(fs[2..]) == [KindOf(fs[2])] + Kinds(fs[3..]);
    assert Kinds(fs[3..]) == [KindOf(fs[3])] + Kinds(fs[4..]);
    assert Kinds(fs[4..]) == [KindOf(fs[4])] + Kinds(fs[5..]);
    assert Kinds(fs[5..]) == [KindOf(fs[5])] + Kinds(fs[6..]);
    assert Kinds(fs[6..]) == [KindOf(fs[6])] + Kinds(fs[7..]);
    assert Kinds(fs[7..]) == [KindOf(fs[7])] + Kinds(fs[8..]);
  }

  /** The bytes `saveEntry` writes for an entry. */
  function Encode(e: Entry): Bytes {
    EncEntry(e, [])
  }

  /** What `readEntry` makes of a file's bytes: an entry, or nothing when the bytes are
      not exactly one encoded entry. */
  function Decode(bs: Bytes): Option<Entry> {
    match DecEntry(bs)
    case None => None
    case Some((e, rest)) => if rest == [] then Some(e) else None
  }

  /** Reading back what was written gives the same entry. */
  lemma RoundTrip(e: Entry)
    ensures Decode(Encode(e)) == Some(e)
  {
    EntryRoundTrip(e, []);
  }

  /** Hence distinct entries are written as distinct bytes. */
  lemma EncodeInjective(a: Entry, b: Entry)
    requires Encode(a) == Encode(b)
    ensures a == b
  {
    RoundTrip(a);
    RoundTrip(b);
  }
}
