/**
  The binary form of the resource generation: an authority over twenty objects in a fixed order, empty, being prepared group
  by group, or established.
 */
module ResourceCodec {
  import opened Results

  type Octet = x: int | 0 <= x < 256
  type Word = x: int | 0 <= x < 0x1_0000_0000_0000_0000

  // ----- big-endian words -----

  function Pow256(n: nat): (p: nat)
    ensures p > 0
  {
    if n == 0 then 1 else 256 * Pow256(n - 1)
  }

  function BigEndian(v: nat, width: nat): (b: seq<Octet>)
    ensures |b| == width
  {
    if width == 0 then [] else BigEndian(v / 256, width - 1) + [v % 256]
  }

  function Value(b: seq<Octet>): nat {
    if b == [] then 0 else 256 * Value(b[..|b| - 1]) + b[|b| - 1]
  }

  lemma {:induction false} ValueOfBigEndian(v: nat, width: nat)
    requires v < Pow256(width)
    ensures Value(BigEndian(v, width)) == v
  {
    if width > 0 {
      ValueOfBigEndian(v / 256, width - 1);
      assert BigEndian(v, width)[..width - 1] == BigEndian(v / 256, width - 1);
    }
  }

  lemma {:induction false} BigEndianOfValue(b: seq<Octet>)
    ensures BigEndian(Value(b), |b|) == b && Value(b) < Pow256(|b|)
  {
    if b != [] {
      BigEndianOfValue(b[..|b| - 1]);
      assert b == b[..|b| - 1] + [b[|b| - 1]];
    }
  }

  lemma EightOctets()
    ensures Pow256(8) == 0x1_0000_0000_0000_0000
  {
    assert Pow256(4) == 0x1_0000_0000 by {
      assert Pow256(2) == 0x1_0000;
    }
    assert Pow256(6) == 0x1_0000_0000_0000;
  }

  // ----- objects -----

  /** The directories that hold the objects, and the names in them; a lock file's name is its slot's number. */
  datatype Directory = Root | Guard | Ledger | Snapshot
  datatype Name = GuardName | LedgerName | SnapshotName | SlotIdentities | Lock(slot: nat) | IdentityOf(of: Name) | PreparedOf(of: Name)

  datatype Place = Place(parent: Directory, name: Name, directory: bool)
  datatype Object = Object(place: Place, device: Word, inode: Word)

  const SCHEMA: seq<Place> := [
    Place(Root, GuardName, true), Place(Root, IdentityOf(GuardName), false),
    Place(Guard, LedgerName, true), Place(Guard, IdentityOf(LedgerName), false),
    Place(Guard, SnapshotName, true), Place(Guard, IdentityOf(SnapshotName), false),
    Place(Ledger, SlotIdentities, false),
    Place(Ledger, Lock(0), false), Place(Ledger, Lock(1), false), Place(Ledger, Lock(2), false), Place(Ledger, Lock(3), false),
    Place(Ledger, Lock(4), false), Place(Ledger, Lock(5), false), Place(Ledger, Lock(6), false), Place(Ledger, Lock(7), false),
    Place(Snapshot, SlotIdentities, false),
    Place(Snapshot, Lock(0), false), Place(Snapshot, Lock(1), false), Place(Snapshot, Lock(2), false), Place(Snapshot, Lock(3), false)]

  const OBJECTS: nat := 20
  const HEADER: nat := 21
  const PREPARING_HEADER: nat := 23

  function Octets(o: Object): (b: seq<Octet>)
    ensures |b| == 16
  {
    BigEndian(o.device, 8) + BigEndian(o.inode, 8)
  }

  function Words(objects: seq<Object>): (b: seq<Octet>)
    ensures |b| == 16 * |objects|
  {
    if objects == [] then [] else Words(objects[..|objects| - 1]) + Octets(objects[|objects| - 1])
  }

  lemma WordValue(b: seq<Octet>)
    requires |b| == 8
    ensures Value(b) < 0x1_0000_0000_0000_0000
  {
    BigEndianOfValue(b);
    EightOctets();
  }

  function ReadWord(b: seq<Octet>): Word
    requires |b| == 8
  {
    WordValue(b);
    Value(b)
  }

  function ReadObject(place: Place, b: seq<Octet>): Object
    requires |b| == 16
  {
    Object(place, ReadWord(b[..8]), ReadWord(b[8..]))
  }

  function ReadObjects(places: seq<Place>, data: seq<Octet>): (objects: seq<Object>)
    requires |data| == 16 * |places|
    ensures |objects| == |places| && forall i :: 0 <= i < |places| ==> objects[i].place == places[i]
  {
    if places == [] then [] else
      var n := |places| - 1;
      ReadObjects(places[..n], data[..16 * n]) + [ReadObject(places[n], data[16 * n..])]
  }

  predicate Placed(objects: seq<Object>, places: seq<Place>) {
    |objects| == |places| && forall i :: 0 <= i < |objects| ==> objects[i].place == places[i]
  }

  lemma ReadOctets(o: Object)
    ensures ReadObject(o.place, Octets(o)) == o
  {
    EightOctets();
    ValueOfBigEndian(o.device, 8);
    ValueOfBigEndian(o.inode, 8);
    assert Octets(o)[..8] == BigEndian(o.device, 8) && Octets(o)[8..] == BigEndian(o.inode, 8);
  }

  lemma OctetsRead(place: Place, b: seq<Octet>)
    requires |b| == 16
    ensures Octets(ReadObject(place, b)) == b
  {
    BigEndianOfValue(b[..8]);
    BigEndianOfValue(b[8..]);
    assert b == b[..8] + b[8..];
  }

  lemma {:induction false} ReadsWords(places: seq<Place>, objects: seq<Object>)
    requires Placed(objects, places)
    ensures ReadObjects(places, Words(objects)) == objects
  {
    if objects != [] {
      var n := |objects| - 1;
      ReadsWords(places[..n], objects[..n]);
      ReadOctets(objects[n]);
      assert Words(objects)[..16 * n] == Words(objects[..n]) && Words(objects)[16 * n..] == Octets(objects[n]);
      assert objects == objects[..n] + [objects[n]];
    }
  }

  lemma {:induction false} WordsRead(places: seq<Place>, data: seq<Octet>)
    requires |data| == 16 * |places|
    ensures Words(ReadObjects(places, data)) == data
  {
    if places != [] {
      var n := |places| - 1;
      WordsRead(places[..n], data[..16 * n]);
      OctetsRead(places[n], data[16 * n..]);
      assert ReadObjects(places, data)[..n] == ReadObjects(places[..n], data[..16 * n]);
    }
  }

  // ----- the authority -----

  /** A group of objects whose identity file is prepared under a staging name. */
  datatype Prepared = Prepared(parent: Directory, identityName: Name, stageName: Name, identityIndex: nat, digest: string,
                               objects: seq<Object>)

  datatype State = Initializing | Established | OtherState

  datatype Authority = Authority(state: State, rootDevice: Word, rootInode: Word, objects: seq<Object>, prepared: Option<Prepared>)

  /** The digest of the identity file of a group, which describes the other objects of the group and where it starts. */
  type IdentityDigest = (nat, seq<Object>) -> string

  /** Where the initialization may stand: before or after each of its five groups. */
  predicate Boundary(count: nat) {
    count == 0 || count == 2 || count == 4 || count == 6 || count == 15 || count == 20
  }

  /** The size of the group that starts here, and which of its objects is the identity file. */
  function GroupSize(start: nat): nat {
    if start == 6 then 9 else if start == 15 then 5 else 2
  }

  function IdentityIndex(start: nat): nat {
    if start == 6 || start == 15 then 0 else 1
  }

  predicate NumbersOk(o: Object, intent: bool) {
    (o.inode == 0 ==> intent) && (o.device == 0 <==> o.inode == 0)
  }

  function Others(objects: seq<Object>, k: nat): seq<Object>
    requires k < |objects|
  {
    objects[..k] + objects[k + 1..]
  }

  function PreparedFor(digest: IdentityDigest, start: nat, objects: seq<Object>): Option<Prepared> {
    if !Boundary(start) || start == OBJECTS || |objects| != GroupSize(start) || start + |objects| > OBJECTS then None
    else if !Placed(objects, SCHEMA[start..start + |objects|]) then None
    else if exists i :: 0 <= i < |objects| && !NumbersOk(objects[i], i == IdentityIndex(start)) then None
    else
      var identity := objects[IdentityIndex(start)].place;
      Some(Prepared(identity.parent, identity.name, PreparedOf(identity.name), IdentityIndex(start),
                    digest(start, Others(objects, IdentityIndex(start))), objects))
  }

  /** An authority that is being prepared stands at a boundary, with whole objects, and any group it prepares is the next. */
  predicate ValidPreparing(digest: IdentityDigest, a: Authority) {
    && |a.objects| <= OBJECTS && Boundary(|a.objects|)
    && Placed(a.objects, SCHEMA[..|a.objects|]) && (forall i :: 0 <= i < |a.objects| ==> a.objects[i].inode != 0)
    && (a.prepared.Some? ==> PreparedFor(digest, |a.objects|, a.prepared.value.objects) == a.prepared)
  }

  function Header(state: Octet, device: Word, inode: Word): (b: seq<Octet>)
    ensures |b| == HEADER
  {
    [82, 82, 71, 49, state] + BigEndian(device, 8) + BigEndian(inode, 8)
  }

  function PreparedObjects(a: Authority): seq<Object> {
    match a.prepared case None => [] case Some(p) => p.objects
  }

  /** Every object is at its place and has both numbers; only a prepared group's identity file may still lack them. */
  predicate Writable(a: Authority, objects: seq<Object>) {
    |objects| <= OBJECTS && forall i :: 0 <= i < |objects| ==> WritableAt(a, objects[i], i)
  }

  predicate WritableAt(a: Authority, o: Object, i: nat)
    requires i < OBJECTS
  {
    o.place == SCHEMA[i] && NumbersOk(o, a.state == Initializing && a.prepared.Some? && i == |a.objects| + a.prepared.value.identityIndex)
  }

  function Encode(digest: IdentityDigest, a: Authority): Option<seq<Octet>> {
    if a.rootInode == 0 then None else
      match a.state
      case OtherState => None
      case Established =>
        if |a.objects| != OBJECTS || a.prepared.Some? || !Writable(a, a.objects) then None
        else Some(Header(2, a.rootDevice, a.rootInode) + Words(a.objects))
      case Initializing =>
        if a.objects == [] && a.prepared == None then Some(Header(1, a.rootDevice, a.rootInode))
        else if !ValidPreparing(digest, a) then None
        else
          var objects := a.objects + PreparedObjects(a);
          if !Writable(a, objects) then None
          else
            Some(Header(3, a.rootDevice, a.rootInode) + [|a.objects|, |PreparedObjects(a)|] + Words(objects))
  }

  /** The first `completed` objects are whole, the rest are the group being prepared. */
  function Assemble(digest: IdentityDigest, completed: nat, all: seq<Object>, rootDevice: Word, rootInode: Word): Option<Authority>
    requires completed <= |all|
  {
    if completed == |all| then Some(Authority(Initializing, rootDevice, rootInode, all, None))
    else
      match PreparedFor(digest, completed, all[completed..])
      case None => None
      case Some(p) => Some(Authority(Initializing, rootDevice, rootInode, all[..completed], Some(p)))
  }

  function DecodePreparing(digest: IdentityDigest, data: seq<Octet>, rootDevice: Word, rootInode: Word): Option<Authority> {
    if |data| < PREPARING_HEADER then None else
      var completed, preparing := data[21], data[22];
      if completed > OBJECTS || preparing > 16 || |data| != PREPARING_HEADER + 16 * (completed + preparing) then None
      else if preparing != 0 && completed + preparing > OBJECTS then None
      else Assemble(digest, completed, ReadObjects(SCHEMA[..completed + preparing], data[PREPARING_HEADER..]), rootDevice, rootInode)
  }

  /** Reads an authority for this root. Every form but the empty one must be byte for byte what it encodes to. */
  function Decode(digest: IdentityDigest, data: seq<Octet>, rootDevice: Word, rootInode: Word): Option<Authority> {
    if |data| < HEADER || data[..4] != [82, 82, 71, 49] then None
    else if ReadWord(data[5..13]) != rootDevice || ReadWord(data[13..21]) != rootInode then None
    else if data[4] == 1 then
      if |data| != HEADER then None else Some(Authority(Initializing, rootDevice, rootInode, [], None))
    else if data[4] == 2 then
      if |data| != HEADER + 16 * OBJECTS then None
      else Canonical(digest, data, Authority(Established, rootDevice, rootInode, ReadObjects(SCHEMA, data[HEADER..]), None))
    else if data[4] == 3 then
      match DecodePreparing(digest, data, rootDevice, rootInode)
      case None => None
      case Some(a) => Canonical(digest, data, a)
    else None
  }

  function Canonical(digest: IdentityDigest, data: seq<Octet>, a: Authority): Option<Authority> {
    if Encode(digest, a) == Some(data) then Some(a) else None
  }

  // ----- encode, then decode -----

  lemma HeaderReads(state: Octet, device: Word, inode: Word, data: seq<Octet>)
    requires Header(state, device, inode) <= data
    ensures |data| >= HEADER && data[..4] == [82, 82, 71, 49] && data[4] == state
    ensures ReadWord(data[5..13]) == device && ReadWord(data[13..21]) == inode
  {
    var h := Header(state, device, inode);
    assert data[..HEADER] == h;
    assert forall i :: 0 <= i < HEADER ==> data[i] == h[i];
    EightOctets();
    ValueOfBigEndian(device, 8);
    ValueOfBigEndian(inode, 8);
    assert data[..4] == h[..4] && h[..4] == [82, 82, 71, 49];
    assert data[5..13] == BigEndian(device, 8) && data[13..21] == BigEndian(inode, 8);
  }

  lemma PreparedShape(digest: IdentityDigest, start: nat, objects: seq<Object>)
    requires PreparedFor(digest, start, objects).Some?
    ensures PreparedFor(digest, start, objects).value.objects == objects && |objects| in {2, 5, 9} && start + |objects| <= OBJECTS
    ensures Placed(objects, SCHEMA[start..start + |objects|])
  {
  }

  lemma CountsRead(h: seq<Octet>, completed: Octet, preparing: Octet, words: seq<Octet>)
    requires |h| == HEADER
    ensures var data := h + [completed, preparing] + words;
            && h <= data && |data| == PREPARING_HEADER + |words|
            && data[21] == completed && data[22] == preparing && data[PREPARING_HEADER..] == words
  {
  }

  lemma PreparingSizes(digest: IdentityDigest, a: Authority)
    requires a.state == Initializing && ValidPreparing(digest, a)
    ensures |a.objects| + |PreparedObjects(a)| <= OBJECTS && |PreparedObjects(a)| <= 9
  {
    if a.prepared.Some? { PreparedShape(digest, |a.objects|, PreparedObjects(a)); }
  }

  lemma Reassembles(digest: IdentityDigest, a: Authority)
    requires a.state == Initializing && ValidPreparing(digest, a)
    ensures Assemble(digest, |a.objects|, a.objects + PreparedObjects(a), a.rootDevice, a.rootInode) == Some(a)
  {
    var more := PreparedObjects(a);
    var all := a.objects + more;
    assert all[|a.objects|..] == more && all[..|a.objects|] == a.objects && (more == [] ==> all == a.objects);
    if a.prepared.Some? { PreparedShape(digest, |a.objects|, more); }
  }

  lemma PreparingReads(digest: IdentityDigest, a: Authority, h: seq<Octet>)
    requires a.state == Initializing && ValidPreparing(digest, a) && |h| == HEADER
    requires Writable(a, a.objects + PreparedObjects(a))
    ensures |a.objects| <= OBJECTS && |PreparedObjects(a)| <= 9
    ensures DecodePreparing(digest, h + [|a.objects|, |PreparedObjects(a)|] + Words(a.objects + PreparedObjects(a)), a.rootDevice, a.rootInode)
            == Some(a)
  {
    PreparingSizes(digest, a);
    WrittenReads(digest, a, a.objects + PreparedObjects(a), h, |a.objects|, |PreparedObjects(a)|);
    Reassembles(digest, a);
  }

  lemma WrittenReads(digest: IdentityDigest, a: Authority, all: seq<Object>, h: seq<Octet>, completed: Octet, preparing: Octet)
    requires |h| == HEADER && Writable(a, all) && |all| == completed + preparing && preparing <= 16
    ensures DecodePreparing(digest, h + [completed, preparing] + Words(all), a.rootDevice, a.rootInode)
            == Assemble(digest, completed, all, a.rootDevice, a.rootInode)
  {
    CountsRead(h, completed, preparing, Words(all));
    PreparingBounds(digest, h + [completed, preparing] + Words(all), a.rootDevice, a.rootInode);
    WritablePlaced(a, all);
    ReadsWords(SCHEMA[..|all|], all);
  }

  lemma WritablePlaced(a: Authority, objects: seq<Object>)
    requires Writable(a, objects)
    ensures Placed(objects, SCHEMA[..|objects|])
  {
    assert forall i :: 0 <= i < |objects| ==> WritableAt(a, objects[i], i);
  }

  lemma PreparingDecodes(digest: IdentityDigest, a: Authority)
    requires a.state == Initializing && !(a.objects == [] && a.prepared == None) && Encode(digest, a).Some?
    ensures Decode(digest, Encode(digest, a).value, a.rootDevice, a.rootInode) == Some(a)
  {
    var h := Header(3, a.rootDevice, a.rootInode);
    EncodePreparingIs(digest, a);
    PreparingReads(digest, a, h);
    var data := h + [|a.objects|, |PreparedObjects(a)|] + Words(a.objects + PreparedObjects(a));
    HeaderReads(3, a.rootDevice, a.rootInode, data);
    DecodeOfPreparing(digest, a, data);
  }

  lemma EncodePreparingIs(digest: IdentityDigest, a: Authority)
    requires a.state == Initializing && !(a.objects == [] && a.prepared == None) && Encode(digest, a).Some?
    ensures ValidPreparing(digest, a) && Writable(a, a.objects + PreparedObjects(a))
    ensures |a.objects| <= OBJECTS && |PreparedObjects(a)| <= OBJECTS
    ensures Encode(digest, a)
            == Some(Header(3, a.rootDevice, a.rootInode) + [|a.objects|, |PreparedObjects(a)|] + Words(a.objects + PreparedObjects(a)))
  {
  }

  lemma DecodeOfPreparing(digest: IdentityDigest, a: Authority, data: seq<Octet>)
    requires |data| >= HEADER && data[..4] == [82, 82, 71, 49] && data[4] == 3
    requires ReadWord(data[5..13]) == a.rootDevice && ReadWord(data[13..21]) == a.rootInode
    requires DecodePreparing(digest, data, a.rootDevice, a.rootInode) == Some(a) && Encode(digest, a) == Some(data)
    ensures Decode(digest, data, a.rootDevice, a.rootInode) == Some(a)
  {
  }

  lemma EstablishedDecodes(digest: IdentityDigest, a: Authority)
    requires a.state == Established && Encode(digest, a).Some?
    ensures Decode(digest, Encode(digest, a).value, a.rootDevice, a.rootInode) == Some(a)
  {
    var data := Encode(digest, a).value;
    HeaderReads(2, a.rootDevice, a.rootInode, data);
    assert data[HEADER..] == Words(a.objects) && SCHEMA[..OBJECTS] == SCHEMA;
    ReadsWords(SCHEMA, a.objects);
  }

  /** What an authority encodes to decodes to that authority. */
  lemma EncodedDecodes(digest: IdentityDigest, a: Authority)
    requires Encode(digest, a).Some?
    ensures Decode(digest, Encode(digest, a).value, a.rootDevice, a.rootInode) == Some(a)
  {
    match a.state
    case Established => EstablishedDecodes(digest, a);
    case Initializing =>
      if a.objects == [] && a.prepared == None {
        HeaderReads(1, a.rootDevice, a.rootInode, Encode(digest, a).value);
      } else {
        PreparingDecodes(digest, a);
      }
    case OtherState =>
  }

  lemma HeaderOf(data: seq<Octet>)
    requires |data| == HEADER && data[..4] == [82, 82, 71, 49]
    ensures Header(data[4], ReadWord(data[5..13]), ReadWord(data[13..21])) == data
  {
    BigEndianOfValue(data[5..13]);
    BigEndianOfValue(data[13..21]);
    assert data == data[..4] + [data[4]] + data[5..13] + data[13..21];
  }

  /**
    Accepted bytes are what the authority they decode to encodes to, for every root a caller can have: the encoder refuses
    inode 0, and the decoder of the empty form does not.
   */
  lemma DecodedEncodes(digest: IdentityDigest, data: seq<Octet>, rootDevice: Word, rootInode: Word)
    requires Decode(digest, data, rootDevice, rootInode).Some?
    ensures var a := Decode(digest, data, rootDevice, rootInode).value;
            && a.rootDevice == rootDevice && a.rootInode == rootInode
            && (Encode(digest, a) == Some(data) <==> rootInode != 0)
  {
    if data[4] == 1 { HeaderOf(data); }
  }

  /** No two authorities share an encoding, and none decodes for another root. */
  lemma EncodingIsInjective(digest: IdentityDigest, a: Authority, b: Authority)
    requires Encode(digest, a).Some? && Encode(digest, a) == Encode(digest, b)
    ensures a == b
  {
    EncodedDecodes(digest, a);
    EncodedDecodes(digest, b);
    var data := Encode(digest, a).value;
    assert a.rootDevice == b.rootDevice && a.rootInode == b.rootInode by { SameRoot(digest, data, a, b); }
  }

  lemma SameRoot(digest: IdentityDigest, data: seq<Octet>, a: Authority, b: Authority)
    requires Decode(digest, data, a.rootDevice, a.rootInode).Some? && Decode(digest, data, b.rootDevice, b.rootInode).Some?
    ensures a.rootDevice == b.rootDevice && a.rootInode == b.rootInode
  {
  }

  // ----- which bytes are accepted -----

  lemma {:induction false} ReadsAt(places: seq<Place>, data: seq<Octet>, k: nat)
    requires |data| == 16 * |places| && k < |places|
    ensures ReadObjects(places, data)[k] == ReadObject(places[k], data[16 * k..16 * k + 16])
  {
    var n := |places| - 1;
    if k < n {
      ReadsAt(places[..n], data[..16 * n], k);
      assert data[..16 * n][16 * k..16 * k + 16] == data[16 * k..16 * k + 16];
    } else {
      assert data[16 * n..] == data[16 * k..16 * k + 16];
    }
  }

  /** The k-th object has both numbers; it may lack both only as the identity file of the group in preparation. */
  predicate NumbersAt(words: seq<Octet>, completed: nat, preparing: nat, k: nat)
    requires 16 * k + 16 <= |words|
  {
    var device, inode := ReadWord(words[16 * k..16 * k + 8]), ReadWord(words[16 * k + 8..16 * k + 16]);
    (inode == 0 ==> preparing > 0 && k == completed + IdentityIndex(completed)) && (device == 0 <==> inode == 0)
  }

  predicate AllNumbers(words: seq<Octet>, completed: nat, preparing: nat)
    requires |words| == 16 * (completed + preparing)
  {
    forall k :: 0 <= k < completed + preparing ==> NumbersAt(words, completed, preparing, k)
  }

  /** The bytes an authority is read from, said of the bytes alone. */
  predicate WellFormed(data: seq<Octet>, rootDevice: Word, rootInode: Word) {
    && |data| >= HEADER && data[..HEADER] == Header(data[4], rootDevice, rootInode)
    && ((data[4] == 1 && |data| == HEADER)
        || (data[4] == 2 && rootInode != 0 && |data| == HEADER + 16 * OBJECTS && AllNumbers(data[HEADER..], OBJECTS, 0))
        || (data[4] == 3 && rootInode != 0 && |data| >= PREPARING_HEADER && WellPrepared(data[21], data[22], data[PREPARING_HEADER..])))
  }

  /** Some objects are there, up to a boundary, and then nothing or the whole of the next group. */
  predicate WellPrepared(completed: nat, preparing: nat, words: seq<Octet>) {
    && Boundary(completed) && completed + preparing > 0 && (preparing != 0 ==> completed != OBJECTS && preparing == GroupSize(completed))
    && |words| == 16 * (completed + preparing) && AllNumbers(words, completed, preparing)
  }

  lemma NumbersRead(places: seq<Place>, words: seq<Octet>, completed: nat, preparing: nat, k: nat)
    requires |words| == 16 * |places| && |places| == completed + preparing && k < |places|
    ensures NumbersOk(ReadObjects(places, words)[k], preparing > 0 && k == completed + IdentityIndex(completed))
            <==> NumbersAt(words, completed, preparing, k)
  {
    ReadsAt(places, words, k);
    var b := words[16 * k..16 * k + 16];
    assert b[..8] == words[16 * k..16 * k + 8] && b[8..] == words[16 * k + 8..16 * k + 16];
  }

  /** What an authority read as `completed` objects and a group of `preparing` allows of its numbers. */
  predicate ReadAs(a: Authority, completed: nat, preparing: nat) {
    && ((a.state == Initializing && a.prepared.Some?) <==> preparing > 0)
    && (preparing > 0 ==> |a.objects| == completed && a.prepared.value.identityIndex == IdentityIndex(completed))
  }

  lemma WritableAtIff(a: Authority, completed: nat, preparing: nat, o: Object, k: nat)
    requires ReadAs(a, completed, preparing) && k < OBJECTS && o.place == SCHEMA[k]
    ensures WritableAt(a, o, k) <==> NumbersOk(o, preparing > 0 && k == completed + IdentityIndex(completed))
  {
  }

  lemma WritableIff(a: Authority, completed: nat, preparing: nat, places: seq<Place>, words: seq<Octet>)
    requires ReadAs(a, completed, preparing) && completed + preparing <= OBJECTS && |words| == 16 * (completed + preparing)
    requires places == SCHEMA[..completed + preparing]
    ensures Writable(a, ReadObjects(places, words)) <==> AllNumbers(words, completed, preparing)
  {
    var objects := ReadObjects(places, words);
    forall k | 0 <= k < |objects|
      ensures WritableAt(a, objects[k], k) <==> NumbersAt(words, completed, preparing, k)
    {
      WritableAtIff(a, completed, preparing, objects[k], k);
      NumbersRead(places, words, completed, preparing, k);
    }
  }

  lemma EstablishedIff(digest: IdentityDigest, data: seq<Octet>, rootDevice: Word, rootInode: Word)
    requires |data| == HEADER + 16 * OBJECTS && data[4] == 2 && data[..HEADER] == Header(2, rootDevice, rootInode)
    ensures var a := Authority(Established, rootDevice, rootInode, ReadObjects(SCHEMA, data[HEADER..]), None);
            Encode(digest, a) == Some(data) <==> rootInode != 0 && AllNumbers(data[HEADER..], OBJECTS, 0)
  {
    var a := Authority(Established, rootDevice, rootInode, ReadObjects(SCHEMA, data[HEADER..]), None);
    assert SCHEMA[..OBJECTS + 0] == SCHEMA;
    WritableIff(a, OBJECTS, 0, SCHEMA, data[HEADER..]);
    WordsRead(SCHEMA, data[HEADER..]);
    assert data == data[..HEADER] + data[HEADER..];
  }

  predicate GroupNumbers(objects: seq<Object>, start: nat) {
    forall i :: 0 <= i < |objects| ==> NumbersOk(objects[i], i == IdentityIndex(start))
  }

  lemma PreparedIff(digest: IdentityDigest, start: nat, objects: seq<Object>)
    requires start + |objects| <= OBJECTS && Placed(objects, SCHEMA[start..start + |objects|])
    ensures PreparedFor(digest, start, objects).Some?
            <==> Boundary(start) && start != OBJECTS && |objects| == GroupSize(start) && GroupNumbers(objects, start)
  {
  }

  lemma GroupHasNumbers(completed: nat, preparing: nat, places: seq<Place>, words: seq<Octet>)
    requires |places| == completed + preparing && |words| == 16 * (completed + preparing) && preparing > 0
    requires AllNumbers(words, completed, preparing)
    ensures GroupNumbers(ReadObjects(places, words)[completed..], completed)
  {
    var group := ReadObjects(places, words)[completed..];
    forall i | 0 <= i < preparing ensures NumbersOk(group[i], i == IdentityIndex(completed)) {
      assert NumbersAt(words, completed, preparing, completed + i);
      NumbersRead(places, words, completed, preparing, completed + i);
    }
  }

  lemma CompletedHaveNumbers(completed: nat, preparing: nat, places: seq<Place>, words: seq<Octet>)
    requires |places| == completed + preparing && |words| == 16 * (completed + preparing) && AllNumbers(words, completed, preparing)
    ensures forall i :: 0 <= i < completed ==> ReadObjects(places, words)[i].inode != 0
  {
    forall i | 0 <= i < completed ensures ReadObjects(places, words)[i].inode != 0 {
      assert NumbersAt(words, completed, preparing, i);
      NumbersRead(places, words, completed, preparing, i);
    }
  }

  lemma AssembledGroup(digest: IdentityDigest, completed: nat, preparing: nat, places: seq<Place>, words: seq<Octet>,
                       rootDevice: Word, rootInode: Word)
    requires completed + preparing <= OBJECTS && |words| == 16 * (completed + preparing) && preparing > 0
    requires places == SCHEMA[..completed + preparing]
    ensures var r := Assemble(digest, completed, ReadObjects(places, words), rootDevice, rootInode);
            r.Some? && ValidPreparing(digest, r.value) && Writable(r.value, ReadObjects(places, words))
            <==> Boundary(completed) && completed != OBJECTS && preparing == GroupSize(completed)
                 && AllNumbers(words, completed, preparing)
  {
    var all := ReadObjects(places, words);
    var r := Assemble(digest, completed, all, rootDevice, rootInode);
    assert Placed(all[completed..], SCHEMA[completed..completed + preparing]);
    PreparedIff(digest, completed, all[completed..]);
    if r.Some? { WritableIff(r.value, completed, preparing, places, words); }
    if AllNumbers(words, completed, preparing) {
      GroupHasNumbers(completed, preparing, places, words);
      if r.Some? {
        CompletedHaveNumbers(completed, preparing, places, words);
        GroupValid(digest, completed, all, rootDevice, rootInode);
      }
    }
  }

  lemma GroupValid(digest: IdentityDigest, completed: nat, all: seq<Object>, rootDevice: Word, rootInode: Word)
    requires completed < |all| <= OBJECTS && Placed(all, SCHEMA[..|all|])
    requires forall i :: 0 <= i < completed ==> all[i].inode != 0
    requires Assemble(digest, completed, all, rootDevice, rootInode).Some?
    ensures ValidPreparing(digest, Assemble(digest, completed, all, rootDevice, rootInode).value)
  {
    PreparedShape(digest, completed, all[completed..]);
    assert Placed(all[..completed], SCHEMA[..completed]);
  }

  lemma AssembledWhole(digest: IdentityDigest, completed: nat, places: seq<Place>, words: seq<Octet>, rootDevice: Word, rootInode: Word)
    requires completed <= OBJECTS && |words| == 16 * completed && places == SCHEMA[..completed]
    ensures var r := Assemble(digest, completed, ReadObjects(places, words), rootDevice, rootInode);
            r.Some? && ValidPreparing(digest, r.value) && Writable(r.value, ReadObjects(places, words))
            <==> Boundary(completed) && AllNumbers(words, completed, 0)
  {
    var r := Assemble(digest, completed, ReadObjects(places, words), rootDevice, rootInode);
    WritableIff(r.value, completed, 0, places, words);
    if AllNumbers(words, completed, 0) { CompletedHaveNumbers(completed, 0, places, words); }
  }

  /** The authority in preparation that the words say. */
  lemma AssembledIff(digest: IdentityDigest, completed: nat, preparing: nat, places: seq<Place>, words: seq<Octet>,
                     rootDevice: Word, rootInode: Word)
    requires completed + preparing <= OBJECTS && |words| == 16 * (completed + preparing)
    requires places == SCHEMA[..completed + preparing]
    ensures var r := Assemble(digest, completed, ReadObjects(places, words), rootDevice, rootInode);
            r.Some? && ValidPreparing(digest, r.value) && Writable(r.value, ReadObjects(places, words))
            <==> Boundary(completed) && (preparing != 0 ==> completed != OBJECTS && preparing == GroupSize(completed))
                 && AllNumbers(words, completed, preparing)
  {
    if preparing == 0 {
      AssembledWhole(digest, completed, places, words, rootDevice, rootInode);
    } else {
      AssembledGroup(digest, completed, preparing, places, words, rootDevice, rootInode);
    }
  }

  lemma AssembledParts(digest: IdentityDigest, completed: nat, all: seq<Object>, rootDevice: Word, rootInode: Word)
    requires completed <= |all| && Assemble(digest, completed, all, rootDevice, rootInode).Some?
    ensures var a := Assemble(digest, completed, all, rootDevice, rootInode).value;
            && a.state == Initializing && a.rootInode == rootInode && a.rootDevice == rootDevice
            && a.objects == all[..completed] && PreparedObjects(a) == all[completed..] && a.objects + PreparedObjects(a) == all
            && (a.prepared == None <==> completed == |all|)
  {
    assert all[..completed] + all[completed..] == all;
  }

  lemma AssembledEncodes(digest: IdentityDigest, completed: Octet, preparing: Octet, places: seq<Place>, words: seq<Octet>,
                         rootDevice: Word, rootInode: Word, data: seq<Octet>)
    requires completed + preparing <= OBJECTS && |words| == 16 * (completed + preparing)
    requires places == SCHEMA[..completed + preparing]
    requires data == Header(3, rootDevice, rootInode) + [completed, preparing] + words
    ensures var r := Assemble(digest, completed, ReadObjects(places, words), rootDevice, rootInode);
            r.Some? && Encode(digest, r.value) == Some(data) <==> rootInode != 0 && WellPrepared(completed, preparing, words)
  {
    AssembledIff(digest, completed, preparing, places, words, rootDevice, rootInode);
    WordsRead(places, words);
    var r := Assemble(digest, completed, ReadObjects(places, words), rootDevice, rootInode);
    if r.Some? {
      AssembledParts(digest, completed, ReadObjects(places, words), rootDevice, rootInode);
      EncodesIff(digest, r.value, completed, preparing, ReadObjects(places, words), data);
    }
  }

  /** Outside these bounds nothing is decoded, and nothing is well prepared. */
  lemma PreparingBounds(digest: IdentityDigest, data: seq<Octet>, rootDevice: Word, rootInode: Word)
    requires |data| >= PREPARING_HEADER
    ensures var completed, preparing, words := data[21], data[22], data[PREPARING_HEADER..];
            if |words| == 16 * (completed + preparing) && completed + preparing <= OBJECTS && preparing <= 16 then
              DecodePreparing(digest, data, rootDevice, rootInode)
              == Assemble(digest, completed, ReadObjects(SCHEMA[..completed + preparing], words), rootDevice, rootInode)
            else DecodePreparing(digest, data, rootDevice, rootInode) == None && !WellPrepared(completed, preparing, words)
  {
  }

  lemma SplitAtCounts(data: seq<Octet>)
    requires |data| >= PREPARING_HEADER
    ensures data == data[..HEADER] + [data[21], data[22]] + data[PREPARING_HEADER..]
  {
  }

  lemma PreparingIff(digest: IdentityDigest, data: seq<Octet>, rootDevice: Word, rootInode: Word)
    requires |data| >= PREPARING_HEADER && data[..HEADER] == Header(3, rootDevice, rootInode)
    ensures var r := DecodePreparing(digest, data, rootDevice, rootInode);
            r.Some? && Encode(digest, r.value) == Some(data)
            <==> rootInode != 0 && WellPrepared(data[21], data[22], data[PREPARING_HEADER..])
  {
    var completed, preparing, words := data[21], data[22], data[PREPARING_HEADER..];
    PreparingBounds(digest, data, rootDevice, rootInode);
    if |words| == 16 * (completed + preparing) && completed + preparing <= OBJECTS {
      SplitAtCounts(data);
      AssembledEncodes(digest, completed, preparing, SCHEMA[..completed + preparing], words, rootDevice, rootInode, data);
    }
  }

  lemma EncodesIff(digest: IdentityDigest, a: Authority, completed: Octet, preparing: Octet, all: seq<Object>, data: seq<Octet>)
    requires a.state == Initializing && completed == |a.objects| && preparing == |PreparedObjects(a)|
    requires all == a.objects + PreparedObjects(a)
    requires data == Header(3, a.rootDevice, a.rootInode) + [completed, preparing] + Words(all)
    ensures Encode(digest, a) == Some(data)
            <==> a.rootInode != 0 && (a.objects != [] || a.prepared.Some?) && ValidPreparing(digest, a) && Writable(a, all)
  {
    assert data[4] == 3;
  }

  /** The decoder accepts exactly the bytes of the three forms: its comparison with the re-encoded bytes refuses nothing more. */
  lemma DecodesIff(digest: IdentityDigest, data: seq<Octet>, rootDevice: Word, rootInode: Word)
    ensures Decode(digest, data, rootDevice, rootInode).Some? <==> WellFormed(data, rootDevice, rootInode)
  {
    if |data| >= HEADER {
      HeaderIff(data, rootDevice, rootInode);
      if data[..HEADER] == Header(data[4], rootDevice, rootInode) {
        if data[4] == 2 && |data| == HEADER + 16 * OBJECTS { EstablishedIff(digest, data, rootDevice, rootInode); }
        if data[4] == 3 && |data| >= PREPARING_HEADER { PreparingIff(digest, data, rootDevice, rootInode); }
      }
    }
  }

  lemma HeaderIff(data: seq<Octet>, rootDevice: Word, rootInode: Word)
    requires |data| >= HEADER
    ensures data[..HEADER] == Header(data[4], rootDevice, rootInode)
            <==> data[..4] == [82, 82, 71, 49] && ReadWord(data[5..13]) == rootDevice && ReadWord(data[13..21]) == rootInode
  {
    var head := data[..HEADER];
    assert head[..4] == data[..4] && head[5..13] == data[5..13] && head[13..21] == data[13..21];
    if head[..4] == [82, 82, 71, 49] { HeaderOf(head); }
    if head == Header(data[4], rootDevice, rootInode) { HeaderReads(data[4], rootDevice, rootInode, head); }
  }

  // ----- preparing, binding and committing a group -----

  /** A group is prepared; the identity file created for it is bound to it; and the group becomes part of the authority. */
  function Prepare(a: Authority, p: Prepared): Authority {
    a.(prepared := Some(p))
  }

  function Bound(p: Prepared, device: Word, inode: Word): Prepared
    requires p.identityIndex < |p.objects|
  {
    p.(objects := p.objects[p.identityIndex := Object(p.objects[p.identityIndex].place, device, inode)])
  }

  function Commit(a: Authority): Authority
    requires a.prepared.Some?
  {
    a.(objects := a.objects + a.prepared.value.objects, prepared := None)
  }

  /** Binding changes nothing the digest is of: the authority with the bound group is valid again. */
  lemma BindingStaysValid(digest: IdentityDigest, a: Authority, device: Word, inode: Word)
    requires ValidPreparing(digest, a) && a.prepared.Some? && device != 0 && inode != 0
    ensures a.prepared.value.identityIndex < |a.prepared.value.objects|
    ensures ValidPreparing(digest, Prepare(a, Bound(a.prepared.value, device, inode)))
  {
    var start, p := |a.objects|, a.prepared.value;
    PreparedShape(digest, start, p.objects);
    var group := Bound(p, device, inode).objects;
    assert Others(group, p.identityIndex) == Others(p.objects, p.identityIndex);
    forall k | 0 <= k < |group|
      ensures group[k].place == SCHEMA[start..start + |group|][k] && NumbersOk(group[k], k == IdentityIndex(start))
    {
      assert NumbersOk(p.objects[k], k == IdentityIndex(start));
    }
    PreparedIff(digest, start, group);
  }

  /** Committing takes a valid authority to the next boundary, and leaves it valid exactly when the identity file was bound. */
  lemma CommitMovesOn(digest: IdentityDigest, a: Authority)
    requires ValidPreparing(digest, a) && a.prepared.Some?
    ensures a.prepared.value.identityIndex < |a.prepared.value.objects|
    ensures (|a.objects|, |Commit(a).objects|) in {(0, 2), (2, 4), (4, 6), (6, 15), (15, 20)}
    ensures ValidPreparing(digest, Commit(a)) <==> a.prepared.value.objects[a.prepared.value.identityIndex].inode != 0
  {
    var start, group := |a.objects|, a.prepared.value.objects;
    PreparedShape(digest, start, group);
    var b := Commit(a);
    assert b.objects[start + IdentityIndex(start)] == group[IdentityIndex(start)];
    forall i | 0 <= i < |b.objects|
      ensures b.objects[i].place == SCHEMA[i] && (b.objects[i].inode == 0 ==> i == start + IdentityIndex(start))
    {
      if i >= start { PreparedAt(digest, start, group, i - start); }
    }
  }

  lemma PreparedAt(digest: IdentityDigest, start: nat, objects: seq<Object>, k: nat)
    requires PreparedFor(digest, start, objects).Some? && k < |objects| && start + |objects| <= OBJECTS
    ensures objects[k].place == SCHEMA[start + k] && (objects[k].inode == 0 ==> k == IdentityIndex(start))
  {
    assert objects[k].place == SCHEMA[start..start + |objects|][k];
    assert NumbersOk(objects[k], k == IdentityIndex(start));
  }

  // ----- the encoder fills a buffer -----

  method PutUint64(data: array<Octet>, offset: nat, v: Word)
    requires offset + 8 <= data.Length
    modifies data
    ensures data[..] == old(data[..offset]) + BigEndian(v, 8) + old(data[offset + 8..])
  {
    var rest: nat, i := v, 8;
    while i > 0
      invariant 0 <= i <= 8 && data[..offset + i] == old(data[..offset + i])
      invariant BigEndian(v, 8) == BigEndian(rest, i) + data[offset + i..offset + 8]
      invariant data[offset + 8..] == old(data[offset + 8..])
    {
      i := i - 1;
      ghost var digits := data[offset + i + 1..offset + 8];
      data[offset + i] := rest % 256;
      assert data[offset + i..offset + 8] == [rest % 256] + digits;
      rest := rest / 256;
    }
    assert data[..] == data[..offset] + data[offset..offset + 8] + data[offset + 8..];
  }

  lemma WordsMore(objects: seq<Object>, k: nat)
    requires k < |objects|
    ensures Words(objects[..k + 1]) == Words(objects[..k]) + Octets(objects[k])
  {
    assert objects[..k + 1][..k] == objects[..k];
  }

  lemma WritableMore(a: Authority, objects: seq<Object>, k: nat)
    requires k < |objects| <= OBJECTS
    ensures Writable(a, objects[..k + 1]) <==> Writable(a, objects[..k]) && WritableAt(a, objects[k], k)
    ensures Writable(a, objects) ==> Writable(a, objects[..k + 1])
  {
    assert forall i :: 0 <= i < k ==> objects[..k][i] == objects[..k + 1][i];
  }

  method PutObject(data: array<Octet>, offset: nat, o: Object)
    requires offset + 16 <= data.Length
    modifies data
    ensures data[..offset + 16] == old(data[..offset]) + Octets(o)
  {
    PutUint64(data, offset, o.device);
    assert data[..offset + 8] == old(data[..offset]) + BigEndian(o.device, 8);
    ghost var half := data[..offset + 8];
    PutUint64(data, offset + 8, o.inode);
    assert data[..offset + 16] == half + BigEndian(o.inode, 8);
  }

  method PutNext(data: array<Octet>, at: nat, a: Authority, objects: seq<Object>, index: nat, ghost before: seq<Octet>)
    returns (ok: bool)
    requires index < |objects| && index < OBJECTS && at + 16 <= data.Length
    requires data[..at] == before + Words(objects[..index])
    modifies data
    ensures ok <==> WritableAt(a, objects[index], index)
    ensures ok ==> data[..at + 16] == before + Words(objects[..index + 1])
  {
    ok := WritableAt(a, objects[index], index);
    if ok {
      PutObject(data, at, objects[index]);
      WordsMore(objects, index);
    }
  }

  /** Writes the objects from `offset` on, as long as each is at its place and has the numbers it must. */
  method PutObjects(data: array<Octet>, offset: nat, a: Authority, objects: seq<Object>) returns (ok: bool)
    requires offset + 16 * |objects| == data.Length && |objects| <= OBJECTS
    modifies data
    ensures ok <==> Writable(a, objects)
    ensures ok ==> data[..] == old(data[..offset]) + Words(objects)
  {
    var at := offset;
    ghost var before := data[..offset];
    for index := 0 to |objects|
      invariant at == offset + 16 * index && data[..at] == before + Words(objects[..index])
      invariant Writable(a, objects[..index])
    {
      WritableMore(a, objects, index);
      var next := PutNext(data, at, a, objects, index, before);
      if !next { return false; }
      at := at + 16;
    }
    assert objects[..|objects|] == objects;
    ok := true;
  }

  method PutHeader(data: array<Octet>, state: Octet, a: Authority)
    requires data.Length >= HEADER
    modifies data
    ensures data[..HEADER] == Header(state, a.rootDevice, a.rootInode) && data[HEADER..] == old(data[HEADER..])
  {
    data[0], data[1], data[2], data[3], data[4] := 82, 82, 71, 49, state;
    PutUint64(data, 5, a.rootDevice);
    PutUint64(data, 13, a.rootInode);
    assert data[..5] == [82, 82, 71, 49, state];
  }

  /** The encoder, as it fills its buffer. */
  method EncodeAuthority(digest: IdentityDigest, a: Authority) returns (r: Option<seq<Octet>>)
    ensures r == Encode(digest, a)
  {
    if a.rootInode == 0 || a.state == OtherState { return None; }
    var empty := a.state == Initializing && a.objects == [] && a.prepared == None;
    if a.state == Established && (|a.objects| != OBJECTS || a.prepared.Some?) { return None; }
    if a.state == Initializing && !empty && !ValidPreparing(digest, a) { return None; }
    var objects := a.objects + PreparedObjects(a);
    if a.prepared.Some? { PreparedShape(digest, |a.objects|, PreparedObjects(a)); }
    var offset := if a.state == Initializing && !empty then PREPARING_HEADER else HEADER;
    var data := new Octet[offset + 16 * |objects|](_ => 0);
    PutHeader(data, if empty then 1 else if a.state == Established then 2 else 3, a);
    ghost var header := data[..HEADER];
    if offset == PREPARING_HEADER {
      data[21], data[22] := |a.objects|, |PreparedObjects(a)|;
      assert data[..offset] == header + [|a.objects|, |PreparedObjects(a)|];
    }
    var ok := PutObjects(data, offset, a, objects);
    assert a.prepared == None ==> objects == a.objects;
    assert empty ==> data[..] == header;
    if !ok { return None; }
    return Some(data[..]);
  }
}
