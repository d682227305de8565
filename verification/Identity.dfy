/** Names that must not collide: observation identities, catalog paths, hex digests, object keys. */
module Identity {
  import opened Domain

  const SLASH: byte := 47
  // "sha256/"
  const KEY_PREFIX: Text := [115, 104, 97, 50, 53, 54, 47]
  // "present" and "deleted"
  const PRESENT: Text := [112, 114, 101, 115, 101, 110, 116]
  const DELETED: Text := [100, 101, 108, 101, 116, 101, 100]

  // ---------- big-endian lengths ----------

  function BigEndian(n: nat, width: nat): (b: Bytes)
    ensures |b| == width
  {
    if width == 0 then [] else BigEndian(n / 256, width - 1) + [(n % 256) as byte]
  }

  function FromBigEndian(b: Bytes): nat {
    if b == [] then 0 else FromBigEndian(b[..|b| - 1]) * 256 + b[|b| - 1] as nat
  }

  function Pow256(width: nat): nat {
    if width == 0 then 1 else 256 * Pow256(width - 1)
  }

  lemma {:induction false} BigEndianRoundTrip(n: nat, width: nat)
    requires n < Pow256(width)
    ensures FromBigEndian(BigEndian(n, width)) == n
  {
    if width > 0 {
      BigEndianRoundTrip(n / 256, width - 1);
      assert BigEndian(n, width)[..width - 1] == BigEndian(n / 256, width - 1);
    }
  }

  /** The digit of `n` in front of 256^k. */
  function Digit(n: nat, k: nat): nat {
    if k == 0 then n % 256 else Digit(n / 256, k - 1)
  }

  /** The most significant byte comes first: counted from the end, byte `k` is digit `k`. */
  lemma {:induction false} BigEndianDigits(n: nat, width: nat, k: nat)
    requires k < width
    ensures BigEndian(n, width)[width - 1 - k] as nat == Digit(n, k)
    decreases width
  {
    if k > 0 {
      BigEndianDigits(n / 256, width - 1, k - 1);
    }
  }

  // ---------- observation identity ----------

  datatype Status = Present | Deleted

  function StatusText(s: Status): Text {
    match s case Present => PRESENT case Deleted => DELETED
  }

  // Lengths are written as unsigned 64-bit numbers.
  predicate Measurable(t: Text) {
    |t| < Pow256(8)
  }

  function Field(t: Text): Bytes {
    BigEndian(|t|, 8) + t
  }

  function Encode(fields: seq<Text>): Bytes {
    if fields == [] then [] else Field(fields[0]) + Encode(fields[1..])
  }

  /** Read back `count` length-prefixed fields, and nothing more. */
  function Decode(b: Bytes, count: nat): Option<seq<Text>> {
    if count == 0 then
      if b == [] then Some([]) else None
    else if |b| < 8 then None
    else
      var n := FromBigEndian(b[..8]);
      if |b| - 8 < n then None
      else
        match Decode(b[8 + n..], count - 1)
        case None => None
        case Some(rest) => Some([b[8..8 + n]] + rest)
  }

  lemma {:induction false} DecodeEncode(fields: seq<Text>)
    requires forall i :: 0 <= i < |fields| ==> Measurable(fields[i])
    ensures Decode(Encode(fields), |fields|) == Some(fields)
  {
    if fields != [] {
      var f, rest := fields[0], fields[1..];
      var b := Encode(fields);
      BigEndianRoundTrip(|f|, 8);
      assert b[..8] == BigEndian(|f|, 8);
      assert b[8..8 + |f|] == f;
      assert b[8 + |f|..] == Encode(rest);
      DecodeEncode(rest);
      assert fields == [f] + rest;
    }
  }

  function GetOr(t: Option<Text>, default: Text): Text {
    match t case Some(v) => v case None => default
  }

  function Fields(source: Text, path: Text, hash: Option<Text>, status: Status): seq<Text> {
    [source, path, GetOr(hash, []), StatusText(status)]
  }

  /** The bytes that are hashed into the row identifier. */
  function ObservationName(source: Text, path: Text, hash: Option<Text>, status: Status): Bytes {
    Encode(Fields(source, path, hash, status))
  }

  method EncodeFields(parts: seq<Text>) returns (name: Bytes)
    ensures name == Encode(parts)
  {
    name := [];
    for i := 0 to |parts|
      invariant name + Encode(parts[i..]) == Encode(parts)
    {
      var part, rest := parts[i], parts[i + 1..];
      assert parts[i..][0] == part && parts[i..][1..] == rest;
      var lengthened := name + BigEndian(|part|, 8);
      assert name + Encode(parts[i..]) == lengthened + part + Encode(rest);
      name := lengthened + part;
    }
    assert parts[|parts|..] == [];
    assert name + [] == name;
  }

  method BuildObservationName(source: Text, path: Text, hash: Option<Text>, status: Status) returns (name: Bytes)
    ensures name == ObservationName(source, path, hash, status)
  {
    name := EncodeFields([source, path, GetOr(hash, []), StatusText(status)]);
  }

  /** The name holds the four fields in this order, and nothing else. */
  lemma ObservationNameReadsBack(source: Text, path: Text, hash: Option<Text>, status: Status)
    requires Measurable(source) && Measurable(path) && Measurable(GetOr(hash, []))
    ensures Decode(ObservationName(source, path, hash, status), 4)
         == Some([source, path, if hash.Some? then hash.value else [], if status.Present? then PRESENT else DELETED])
  {
    var fields := Fields(source, path, hash, status);
    StatusesAreMeasurable();
    assert forall i :: 0 <= i < |fields| ==> Measurable(fields[i]);
    DecodeEncode(fields);
  }

  lemma StatusesAreMeasurable()
    ensures Measurable(PRESENT) && Measurable(DELETED)
  {
    assert Pow256(1) == 256 && Pow256(8) == 256 * Pow256(7) && Pow256(7) >= 1;
  }

  /** Identities collide before hashing only where a missing hash meets an empty one. */
  lemma ObservationNamesDoNotCollide(
      s1: Text, p1: Text, h1: Option<Text>, st1: Status, s2: Text, p2: Text, h2: Option<Text>, st2: Status)
    requires Measurable(s1) && Measurable(p1) && Measurable(GetOr(h1, []))
    requires Measurable(s2) && Measurable(p2) && Measurable(GetOr(h2, []))
    ensures ObservationName(s1, p1, h1, st1) == ObservationName(s2, p2, h2, st2)
            <==> s1 == s2 && p1 == p2 && GetOr(h1, []) == GetOr(h2, []) && st1 == st2
  {
    var f1, f2 := Fields(s1, p1, h1, st1), Fields(s2, p2, h2, st2);
    StatusesAreMeasurable();
    DecodeEncode(f1);
    DecodeEncode(f2);
    if f1 == f2 {
      assert f1[0] == f2[0] && f1[1] == f2[1] && f1[2] == f2[2] && f1[3] == f2[3];
      assert PRESENT[0] != DELETED[0];
    }
  }

  // ---------- relative paths ----------

  /** A path component; a normal one whose name is not valid UTF-8 has no text. */
  datatype Component = Normal(name: Option<Text>) | Special

  function NormalNames(cs: seq<Component>): seq<Text> {
    if cs == [] then []
    else
      var c := cs[|cs| - 1];
      NormalNames(cs[..|cs| - 1]) + if c.Normal? && c.name.Some? then [c.name.value] else []
  }

  function Join(parts: seq<Text>): Text {
    if parts == [] then []
    else if |parts| == 1 then parts[0]
    else parts[0] + [SLASH] + Join(parts[1..])
  }

  function Split(t: Text): (parts: seq<Text>)
    ensures parts != []
  {
    if t == [] then [[]]
    else
      var rest := Split(t[1..]);
      if t[0] == SLASH then [[]] + rest else [[t[0]] + rest[0]] + rest[1..]
  }

  /** How many of the components are names. */
  function Normals(cs: seq<Component>): nat {
    if cs == [] then 0 else Normals(cs[..|cs| - 1]) + if cs[|cs| - 1].Normal? then 1 else 0
  }

  /** What a platform may hand over: names that are not empty and hold no separator. */
  ghost predicate ProperComponents(cs: seq<Component>) {
    forall i :: 0 <= i < |cs| && cs[i].Normal? && cs[i].name.Some? ==> ProperName(cs[i].name.value)
  }

  /** Split at the separators, `path` is the names in their order, and the special components are gone. */
  ghost predicate Spells(path: Text, cs: seq<Component>) {
    if Normals(cs) == 0 then path == []
    else
      && |Split(path)| == Normals(cs)
      && forall i :: 0 <= i < |cs| && cs[i].Normal? ==>
           Normals(cs[..i]) < |Split(path)| && Some(Split(path)[Normals(cs[..i])]) == cs[i].name
  }

  /** `None` is the error for a component that is not valid UTF-8. */
  method NormalizeRelativePath(components: seq<Component>) returns (path: Option<Text>)
    ensures path.None? <==> exists i :: 0 <= i < |components| && components[i] == Normal(None)
    ensures path.Some? ==> path.value == Join(NormalNames(components))
    ensures path.Some? && ProperComponents(components) ==> Spells(path.value, components)
  {
    var parts: seq<Text> := [];
    for i := 0 to |components|
      invariant parts == NormalNames(components[..i])
      invariant forall j :: 0 <= j < i ==> components[j] != Normal(None)
    {
      var c := components[i];
      assert components[..i + 1][..i] == components[..i];
      if c.Normal? {
        if c.name.None? {
          return None;
        }
        parts := parts + [c.name.value];
      }
    }
    assert components[..|components|] == components;
    path := Some(Join(parts));
    if ProperComponents(components) {
      JoinedSpells(components);
    }
  }

  lemma {:induction false} NamesAreCounted(cs: seq<Component>)
    requires forall i :: 0 <= i < |cs| ==> cs[i] != Normal(None)
    ensures |NormalNames(cs)| == Normals(cs)
  {
    if cs != [] {
      NamesAreCounted(cs[..|cs| - 1]);
    }
  }

  /** A name stands behind the names in front of it. */
  lemma {:induction false} NameAt(cs: seq<Component>, i: nat)
    requires forall j :: 0 <= j < |cs| ==> cs[j] != Normal(None)
    requires i < |cs| && cs[i].Normal?
    ensures Normals(cs[..i]) < |NormalNames(cs)| && Some(NormalNames(cs)[Normals(cs[..i])]) == cs[i].name
  {
    var n := |cs| - 1;
    NamesAreCounted(cs[..n]);
    if i < n {
      NameAt(cs[..n], i);
      assert cs[..n][..i] == cs[..i];
    }
  }

  lemma {:induction false} NamesAreProper(cs: seq<Component>)
    requires ProperComponents(cs)
    ensures forall i :: 0 <= i < |NormalNames(cs)| ==> ProperName(NormalNames(cs)[i])
  {
    if cs != [] {
      NamesAreProper(cs[..|cs| - 1]);
    }
  }

  lemma JoinedSpells(cs: seq<Component>)
    requires ProperComponents(cs) && forall i :: 0 <= i < |cs| ==> cs[i] != Normal(None)
    ensures Spells(Join(NormalNames(cs)), cs)
  {
    NamesAreCounted(cs);
    NamesAreProper(cs);
    if NormalNames(cs) != [] {
      SplitJoin(NormalNames(cs));
    }
    forall i | 0 <= i < |cs| && cs[i].Normal?
      ensures Normals(cs[..i]) < |NormalNames(cs)| && Some(NormalNames(cs)[Normals(cs[..i])]) == cs[i].name
    {
      NameAt(cs, i);
    }
  }

  /** A root, a current or a parent directory anywhere changes nothing. */
  lemma {:induction false} SpecialsDoNotMatter(before: seq<Component>, after: seq<Component>)
    ensures NormalNames(before + [Special] + after) == NormalNames(before + after)
    decreases |after|
  {
    var cs := before + [Special] + after;
    if after == [] {
      assert cs[..|cs| - 1] == before && before + after == before;
    } else {
      var init := after[..|after| - 1];
      SpecialsDoNotMatter(before, init);
      assert cs[..|cs| - 1] == before + [Special] + init;
      assert (before + after)[..|before + after| - 1] == before + init;
    }
  }

  predicate ProperName(t: Text) {
    t != [] && SLASH !in t
  }

  lemma {:induction false} SplitFirst(p: Text, t: Text)
    requires SLASH !in p
    ensures Split(p) == [p]
    ensures Split(p + [SLASH] + t) == [p] + Split(t)
  {
    if p == [] {
      assert p + [SLASH] + t == [SLASH] + t;
      assert ([SLASH] + t)[1..] == t;
    } else {
      SplitFirst(p[1..], t);
      assert (p + [SLASH] + t)[1..] == p[1..] + [SLASH] + t;
      assert [p[0]] + p[1..] == p;
    }
  }

  /** Joining is undone by splitting, for names that hold no separator; empty ones included. */
  lemma {:induction false} SplitJoin(parts: seq<Text>)
    requires parts != [] && forall i :: 0 <= i < |parts| ==> SLASH !in parts[i]
    ensures Split(Join(parts)) == parts
  {
    if |parts| == 1 {
      SplitFirst(parts[0], []);
    } else {
      SplitJoin(parts[1..]);
      SplitFirst(parts[0], Join(parts[1..]));
    }
  }

  /** Two component lists share a catalog path exactly when their normal names agree. */
  lemma PathsDoNotCollide(a: seq<Text>, b: seq<Text>)
    requires forall i :: 0 <= i < |a| ==> ProperName(a[i])
    requires forall i :: 0 <= i < |b| ==> ProperName(b[i])
    ensures Join(a) == Join(b) <==> a == b
  {
    if a != [] {
      SplitJoin(a);
      assert |a[0]| > 0;
    }
    if b != [] {
      SplitJoin(b);
      assert |b[0]| > 0;
    }
  }

  // ---------- object keys ----------

  /** Object key of a digest; a digest shorter than four characters gets no fan-out directories. */
  function ObjectKey(hash: Text): Text {
    if |hash| >= 4 then KEY_PREFIX + hash[0..2] + [SLASH] + hash[2..4] + [SLASH] + hash
    else KEY_PREFIX + hash
  }

  // "sha256"
  const SHA256: Text := [115, 104, 97, 50, 53, 54]

  /** The directories of a key: the first two characters, the next two, and the whole digest. */
  lemma ObjectKeyReadsBack(hash: Text)
    requires SLASH !in hash
    ensures Split(ObjectKey(hash))
         == if |hash| < 4 then [SHA256, hash] else [SHA256, hash[0..2], hash[2..4], hash]
  {
    SplitFirst(hash, []);
    if |hash| < 4 {
      assert KEY_PREFIX == SHA256 + [SLASH];
      SplitFirst(SHA256, hash);
    } else {
      FanOutReadsBack(hash[0..2], hash[2..4], hash);
    }
  }

  lemma FanOutReadsBack(a: Text, b: Text, hash: Text)
    requires SLASH !in a && SLASH !in b && SLASH !in hash
    ensures Split(KEY_PREFIX + a + [SLASH] + b + [SLASH] + hash) == [SHA256, a, b, hash]
  {
    var outer := a + [SLASH] + (b + [SLASH] + hash);
    ThreeReadBack(a, b, hash);
    SplitFirst(SHA256, outer);
    Regroup(a, [SLASH], b, hash);
    assert KEY_PREFIX == SHA256 + [SLASH];
  }

  lemma ThreeReadBack(a: Text, b: Text, c: Text)
    requires SLASH !in a && SLASH !in b && SLASH !in c
    ensures Split(a + [SLASH] + (b + [SLASH] + c)) == [a, b, c]
  {
    SplitFirst(c, []);
    SplitFirst(b, c);
    SplitFirst(a, b + [SLASH] + c);
  }

  lemma Regroup(a: Text, s: Text, b: Text, c: Text)
    ensures KEY_PREFIX + a + s + b + s + c == KEY_PREFIX + (a + s + (b + s + c))
  {}

  /** Digests of any two lengths have different keys. */
  lemma ObjectKeyInjective(a: Text, b: Text)
    ensures ObjectKey(a) == ObjectKey(b) <==> a == b
  {
    var ka, kb := ObjectKey(a), ObjectKey(b);
    assert ka[|ka| - |a|..] == a;
    assert kb[|kb| - |b|..] == b;
  }
}
