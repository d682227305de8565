/**
 * Mutation-safe content-addressed upload. The file may change between any two reads, other writers
 * that follow the same protocol may store objects at any moment, and the store may lose objects.
 */
module Upload {
  import opened Domain
  import opened Identity
  import opened Seqs

  /** A stored blob; objects written by old versions carry no digest metadata. */
  datatype Obj = Obj(bytes: Bytes, sha256: Option<Text>)

  type Blobs = map<Text, Obj>

  predicate Entry(sha: Bytes -> Text, key: Text, obj: Obj) {
    key == ObjectKey(sha(obj.bytes))
  }

  /** Every stored object hashes to its key. */
  predicate Cas(sha: Bytes -> Text, blobs: Blobs) {
    forall k :: k in blobs ==> Entry(sha, k, blobs[k])
  }

  /** What every protocol participant may do: add objects that hash to their key, change none. */
  predicate Protocol(sha: Bytes -> Text, before: Blobs, after: Blobs) {
    && (forall k :: k in before ==> k in after && after[k] == before[k])
    && (forall k :: k in after ==> k in before || Entry(sha, k, after[k]))
  }

  lemma ProtocolKeepsCas(sha: Bytes -> Text, before: Blobs, after: Blobs)
    requires Cas(sha, before) && Protocol(sha, before, after)
    ensures Cas(sha, after)
  {}

  /**
   * What a participant must be prepared for between two of its own steps: others follow the
   * protocol, and objects get lost. Nobody puts wrong bytes under a key.
   */
  predicate Rely(sha: Bytes -> Text, before: Blobs, after: Blobs) {
    forall k :: k in after ==> (k in before && after[k] == before[k]) || Entry(sha, k, after[k])
  }

  lemma RelyKeepsCas(sha: Bytes -> Text, before: Blobs, after: Blobs)
    requires Cas(sha, before) && Rely(sha, before, after)
    ensures Cas(sha, after)
  {}

  lemma RelyTwice(sha: Bytes -> Text, a: Blobs, b: Blobs, c: Blobs)
    requires Rely(sha, a, b) && Rely(sha, b, c)
    ensures Rely(sha, a, c)
  {}

  /** The store went from `before` to `after` in others' hands, and lost at most `lost` on the way. */
  ghost predicate Moved(sha: Bytes -> Text, before: Blobs, after: Blobs, lost: set<Text>) {
    Cas(sha, after) && Rely(sha, before, after) && before.Keys <= after.Keys + lost
  }

  lemma MovedTwice(sha: Bytes -> Text, a: Blobs, b: Blobs, c: Blobs, first: set<Text>, second: set<Text>)
    requires Moved(sha, a, b, first) && Moved(sha, b, c, second)
    ensures Moved(sha, a, c, first + second)
  {
    RelyTwice(sha, a, b, c);
  }

  // ---------- the world outside ----------

  /** One read of the file; a chunk also says whether the storage writer accepted it. */
  datatype Read = Chunk(bytes: Bytes, accepted: bool) | ReadFailed

  datatype CloseReply =
    | Acknowledged      // the conditional write was decided and the answer arrived
    | ErrorApplied      // decided, but the caller sees an error
    | ErrorNotApplied

  /** Everything the outside decides during one upload. An empty chunk, or no more reads, is end of file. */
  datatype UploadIO = UploadIO(
    statLen: Option<nat>,
    opens: bool,
    input: seq<Read>,
    close: CloseReply,
    metadata: bool)

  datatype UploadResult =
    | Uploaded(bytes: nat)
    | AlreadyExists
    | SourceChanged(actual: Option<Text>, actualLen: nat)
    | Aborted      // stat, open, read or write failed; nothing was finalized
    | CloseFailed  // the final conditional write returned an error; its effect is unknown

  /** The bytes streamed by end of file, on top of `sofar`; none if a read or a write fails first. */
  function Streamed(sofar: Bytes, input: seq<Read>): Option<Bytes>
    decreases input
  {
    if input == [] then Some(sofar)
    else
      match input[0]
      case ReadFailed => None
      case Chunk(b, accepted) =>
        if b == [] then Some(sofar) else if !accepted then None else Streamed(sofar + b, input[1..])
  }

  /** An empty chunk ends the stream. */
  predicate AtEnd(r: Read) {
    r.Chunk? && r.bytes == []
  }

  predicate Fails(r: Read) {
    r.ReadFailed? || (r.bytes != [] && !r.accepted)
  }

  /** Read for read: what was accepted until the end of the file, or nothing if a read or a write fails before. */
  lemma {:induction false} StreamedIsAccepted(sofar: Bytes, input: seq<Read>, chunks: seq<Bytes>)
    requires |chunks| <= |input|
    requires forall i :: 0 <= i < |chunks| ==> input[i] == Chunk(chunks[i], true) && chunks[i] != []
    ensures |chunks| == |input| || AtEnd(input[|chunks|]) ==> Streamed(sofar, input) == Some(sofar + Flatten(chunks))
    ensures |chunks| < |input| && Fails(input[|chunks|]) ==> Streamed(sofar, input).None?
    decreases |chunks|
  {
    if chunks == [] {
      assert sofar + [] == sofar;
    } else {
      StreamedIsAccepted(sofar + chunks[0], input[1..], chunks[1..]);
      FlattenCons(chunks[0], chunks[1..]);
      assert [chunks[0]] + chunks[1..] == chunks;
      assert sofar + chunks[0] + Flatten(chunks[1..]) == sofar + Flatten(chunks);
    }
  }

  lemma StreamedStep(sofar: Bytes, input: seq<Read>, i: nat)
    requires i <= |input|
    ensures i == |input| || AtEnd(input[i]) ==> Streamed(sofar, input[i..]) == Some(sofar)
    ensures i < |input| && !AtEnd(input[i]) ==>
              Streamed(sofar, input[i..])
              == if input[i].ReadFailed? || !input[i].accepted then None
                 else Streamed(sofar + input[i].bytes, input[i + 1..])
  {
    if i < |input| {
      assert input[i..][0] == input[i] && input[i..][1..] == input[i + 1..];
    }
  }

  function NewObject(bytes: Bytes, expected: Text, io: UploadIO): Obj {
    Obj(bytes, if io.metadata then Some(expected) else None)
  }

  /** The conditional write at the end of a verified stream. */
  function CloseEffect(blobs: Blobs, key: Text, obj: Obj, reply: CloseReply): (UploadResult, Blobs) {
    match reply
    case Acknowledged =>
      if key in blobs then (AlreadyExists, blobs)
      else (UploadResult.Uploaded(|obj.bytes|), blobs[key := obj])
    case ErrorApplied => (CloseFailed, if key in blobs then blobs else blobs[key := obj])
    case ErrorNotApplied => (CloseFailed, blobs)
  }

  /** The whole upload against the store as it is when the upload ends. */
  function UploadEffect(sha: Bytes -> Text, blobs: Blobs, expected: Text, len: nat, io: UploadIO)
    : (UploadResult, Blobs)
  {
    if io.statLen.None? then (Aborted, blobs)
    else if io.statLen.value != len then (SourceChanged(None, io.statLen.value), blobs)
    else if !io.opens then (Aborted, blobs)
    else
      match Streamed([], io.input)
      case None => (Aborted, blobs)
      case Some(bytes) =>
        if sha(bytes) != expected || |bytes| != len then (SourceChanged(Some(sha(bytes)), |bytes|), blobs)
        else CloseEffect(blobs, ObjectKey(expected), NewObject(bytes, expected, io), io.close)
  }

  // ---------- the upload as a program ----------

  class BlobStore {
    const sha: Bytes -> Text
    var objects: Blobs
    ghost var writes: nat  // conditional writes of this participant

    constructor (sha: Bytes -> Text)
      ensures objects == map[] && writes == 0 && this.sha == sha
    {
      this.sha := sha;
      objects, writes := map[], 0;
    }

    // Other writers get a turn, and objects may be lost.
    method Interfere() returns (ghost lost: set<Text>)
      modifies this`objects
      ensures Rely(sha, old(objects), objects)
      ensures lost == old(objects.Keys) - objects.Keys
    {
      lost := {};
      var others: Blobs := *;
      if Rely(sha, objects, others) {
        lost := objects.Keys - others.Keys;
        objects := others;
      }
    }

    // The conditional write: nothing is ever overwritten.
    method PutIfAbsent(key: Text, obj: Obj, reply: CloseReply) returns (r: UploadResult)
      modifies this
      ensures (r, objects) == CloseEffect(old(objects), key, obj, reply)
      ensures writes == old(writes) + 1
    {
      writes := writes + 1;
      var absent := key !in objects;
      if absent && !reply.ErrorNotApplied? {
        objects := objects[key := obj];
      }
      r := match reply
           case Acknowledged => if absent then UploadResult.Uploaded(|obj.bytes|) else AlreadyExists
           case _ => CloseFailed;
    }
  }

  /** Read, hash and forward every chunk, until the end of the file or the first failure. */
  method StreamBody(store: BlobStore, input: seq<Read>)
    returns (ok: bool, hashed: Bytes, actualLen: nat, body: Bytes, ghost lost: set<Text>)
    modifies store`objects
    ensures Rely(store.sha, old(store.objects), store.objects)
    ensures old(store.objects.Keys) <= store.objects.Keys + lost
    ensures Streamed([], input) == if ok then Some(body) else None
    ensures ok ==> hashed == body && actualLen == |body|
  {
    hashed, actualLen, body, lost := [], 0, [], {};
    var i := 0;
    assert input[0..] == input;
    while i < |input| && !AtEnd(input[i])
      invariant 0 <= i <= |input|
      invariant hashed == body && actualLen == |body|
      invariant Streamed([], input) == Streamed(body, input[i..])
      invariant Rely(store.sha, old(store.objects), store.objects)
      invariant old(store.objects.Keys) <= store.objects.Keys + lost
    {
      ghost var gone := store.Interfere();
      lost := lost + gone;
      var read := input[i];
      StreamedStep(body, input, i);
      if read.ReadFailed? {
        ok := false;
        return;
      }
      hashed := hashed + read.bytes;
      actualLen := actualLen + |read.bytes|;
      if !read.accepted {
        ok := false;
        return;
      }
      body := body + read.bytes;
      i := i + 1;
    }
    StreamedStep(body, input, i);
    ghost var gone := store.Interfere();
    ok, lost := true, lost + gone;
  }

  /**
   * Stream the file into the key of `expected`, hashing on the way. `atEnd` is the store just
   * before the upload's own last action, `lost` what the store lost until then.
   */
  method UploadVerified(store: BlobStore, expected: Text, len: nat, io: UploadIO)
    returns (r: UploadResult, ghost atEnd: Blobs, ghost lost: set<Text>)
    modifies store
    ensures Rely(store.sha, old(store.objects), atEnd)
    ensures old(store.objects.Keys) <= atEnd.Keys + lost
    ensures (r, store.objects) == UploadEffect(store.sha, atEnd, expected, len, io)
    ensures store.writes == old(store.writes) + if r.SourceChanged? || r.Aborted? then 0 else 1
  {
    lost := store.Interfere();
    atEnd := store.objects;
    if io.statLen.None? {
      r := Aborted;
      return;
    }
    var currentLen := io.statLen.value;
    if currentLen != len {
      r := SourceChanged(None, currentLen);
      return;
    }
    if !io.opens {
      r := Aborted;
      return;
    }

    ghost var gone;
    var ok, hashed, actualLen, body;
    ok, hashed, actualLen, body, gone := StreamBody(store, io.input);
    lost, atEnd := lost + gone, store.objects;
    if !ok {
      r := Aborted;
      return;
    }
    var actual := store.sha(hashed);
    if actual != expected || actualLen != len {
      r := SourceChanged(Some(actual), actualLen);
      return;
    }
    r := store.PutIfAbsent(ObjectKey(expected), NewObject(body, expected, io), io.close);
  }

  // ---------- what the upload guarantees ----------

  /** The upload itself follows the protocol: it keeps the store content-addressed and changes no object. */
  lemma UploadFollowsProtocol(sha: Bytes -> Text, blobs: Blobs, expected: Text, len: nat, io: UploadIO)
    ensures Protocol(sha, blobs, UploadEffect(sha, blobs, expected, len, io).1)
    ensures UploadEffect(sha, blobs, expected, len, io).1.Keys <= blobs.Keys + {ObjectKey(expected)}
  {}

  /** An upload that reports a changed source or an aborted stream stored nothing. */
  lemma FailedUploadStoresNothing(sha: Bytes -> Text, blobs: Blobs, expected: Text, len: nat, io: UploadIO)
    ensures var (r, after) := UploadEffect(sha, blobs, expected, len, io);
            && (r.SourceChanged? || r.Aborted? || r.AlreadyExists? ==> after == blobs)
            && (r.Uploaded? ==> ObjectKey(expected) !in blobs && ObjectKey(expected) in after)
            && (r.CloseFailed? ==> after == blobs || (ObjectKey(expected) !in blobs && ObjectKey(expected) in after))
  {}

  /** The object under the key of `hash` has exactly that digest and length. */
  ghost predicate Stored(sha: Bytes -> Text, blobs: Blobs, hash: Text, len: nat) {
    var key := ObjectKey(hash);
    key in blobs && sha(blobs[key].bytes) == hash && |blobs[key].bytes| == len
  }

  /**
   * What remains true of a blob that was stored once: its key is among those ever `seen`, and
   * content with this digest has this length. Nothing that happens to the store undoes it.
   */
  ghost predicate Vouched(sha: Bytes -> Text, seen: set<Text>, hash: Text, len: nat) {
    ObjectKey(hash) in seen && forall bytes :: sha(bytes) == hash ==> |bytes| == len
  }

  lemma StoredIsVouched(sha: Bytes -> Text, blobs: Blobs, seen: set<Text>, hash: Text, len: nat)
    requires Injective(sha) && Stored(sha, blobs, hash, len) && blobs.Keys <= seen
    ensures Vouched(sha, seen, hash, len)
  {}

  /** As long as an object is there, lost in between or not, it is the one that was vouched for. */
  lemma VouchedIsStored(sha: Bytes -> Text, blobs: Blobs, seen: set<Text>, hash: Text, len: nat)
    requires Cas(sha, blobs) && Vouched(sha, seen, hash, len)
    ensures Stored(sha, blobs, hash, len) <==> ObjectKey(hash) in blobs
  {
    if ObjectKey(hash) in blobs {
      ObjectKeyInjective(hash, sha(blobs[ObjectKey(hash)].bytes));
    }
  }

  /**
   * Whether this call stored the object or found that another writer had: the stored bytes are
   * the streamed ones, with the expected digest and length.
   */
  lemma SuccessfulUploadIsStored(sha: Bytes -> Text, blobs: Blobs, expected: Text, len: nat, io: UploadIO)
    requires Injective(sha) && Cas(sha, blobs)
    ensures var (r, after) := UploadEffect(sha, blobs, expected, len, io);
            r.Uploaded? || r.AlreadyExists? ==>
              && Stored(sha, after, expected, len)
              && Streamed([], io.input) == Some(after[ObjectKey(expected)].bytes)
  {
    var (r, after) := UploadEffect(sha, blobs, expected, len, io);
    if r.AlreadyExists? {
      var obj := blobs[ObjectKey(expected)];
      ObjectKeyInjective(expected, sha(obj.bytes));
      assert sha(obj.bytes) == sha(Streamed([], io.input).value);
    }
  }

  /** A blob this call stored holds the streamed bytes and, where the store keeps metadata, their digest. */
  lemma NewBlobCarriesItsDigest(sha: Bytes -> Text, blobs: Blobs, expected: Text, len: nat, io: UploadIO)
    ensures var (r, after) := UploadEffect(sha, blobs, expected, len, io);
            r.Uploaded? ==>
              && ObjectKey(expected) in after
              && after[ObjectKey(expected)].sha256 == (if io.metadata then Some(expected) else None)
              && Streamed([], io.input) == Some(after[ObjectKey(expected)].bytes)
  {}

  // ---------- what an upload sees ----------

  /** The file is not the one that was hashed: another length, or other bytes when it is read again. */
  ghost predicate SeesChange(sha: Bytes -> Text, expected: Text, len: nat, io: UploadIO) {
    && io.statLen.Some?
    && (io.statLen.value != len
        || (io.opens && Streamed([], io.input).Some?
            && (sha(Streamed([], io.input).value) != expected || |Streamed([], io.input).value| != len)))
  }

  /** The file is the one that was hashed, from the first byte to the last. */
  ghost predicate SeesSame(sha: Bytes -> Text, expected: Text, len: nat, io: UploadIO) {
    && io.statLen == Some(len) && io.opens && Streamed([], io.input).Some?
    && sha(Streamed([], io.input).value) == expected && |Streamed([], io.input).value| == len
  }

  /**
   * The five answers of an upload: a changed source exactly when it sees a change, an abort when it
   * sees neither, and otherwise what the conditional write says.
   */
  lemma UploadAnswers(sha: Bytes -> Text, blobs: Blobs, expected: Text, len: nat, io: UploadIO)
    ensures var r := UploadEffect(sha, blobs, expected, len, io).0;
            && (r.SourceChanged? <==> SeesChange(sha, expected, len, io))
            && (r.SourceChanged? ==> r.actualLen != len || (r.actual.Some? && r.actual.value != expected))
            && (r.Aborted? <==> !SeesChange(sha, expected, len, io) && !SeesSame(sha, expected, len, io))
            && (r.CloseFailed? <==> SeesSame(sha, expected, len, io) && !io.close.Acknowledged?)
            && (r.AlreadyExists? <==>
                  SeesSame(sha, expected, len, io) && io.close.Acknowledged? && ObjectKey(expected) in blobs)
            && (r == UploadResult.Uploaded(len) <==>
                  SeesSame(sha, expected, len, io) && io.close.Acknowledged? && ObjectKey(expected) !in blobs)
  {}

  // ---------- checking an existing blob ----------

  datatype Verdict = Missing | Verified | Legacy | SizeMismatch | DigestMismatch | StatFailed

  function VerifyExisting(blobs: Blobs, expected: Text, len: nat, statFails: bool): Verdict {
    var key := ObjectKey(expected);
    if statFails then StatFailed
    else if key !in blobs then Missing
    else if |blobs[key].bytes| != len then SizeMismatch
    else
      match blobs[key].sha256
      case None => Legacy
      case Some(stored) => if stored == expected then Verified else DigestMismatch
  }

  /** The object is there, of the right length, and no other digest is recorded with it. */
  predicate Trustworthy(blobs: Blobs, expected: Text, len: nat) {
    var key := ObjectKey(expected);
    && key in blobs && |blobs[key].bytes| == len
    && (blobs[key].sha256.Some? ==> blobs[key].sha256.value == expected)
  }

  /**
   * A blob is trusted exactly when it agrees, and reported missing exactly when it is not there.
   * One that contradicts what was hashed, in its length or its recorded digest, is neither.
   */
  lemma ContradictionIsAnError(blobs: Blobs, expected: Text, len: nat, statFails: bool)
    ensures var v := VerifyExisting(blobs, expected, len, statFails);
            && (v.Verified? || v.Legacy? <==> !statFails && Trustworthy(blobs, expected, len))
            && (v.Legacy? ==> blobs[ObjectKey(expected)].sha256.None?)
            && (v.Missing? <==> !statFails && ObjectKey(expected) !in blobs)
  {}

  /**
   * A trusted blob has the expected digest and length, and is the very content that was hashed. A
   * size mismatch means the recorded length never was the length of that content.
   */
  lemma TrustedBlobIsStored(sha: Bytes -> Text, blobs: Blobs, expected: Text, len: nat, statFails: bool)
    requires Injective(sha) && Cas(sha, blobs)
    ensures var v := VerifyExisting(blobs, expected, len, statFails);
            && (v.Verified? || v.Legacy? ==>
                  && Stored(sha, blobs, expected, len)
                  && forall bytes :: sha(bytes) == expected ==> bytes == blobs[ObjectKey(expected)].bytes)
            && (v.SizeMismatch? ==> forall bytes :: sha(bytes) == expected ==> |bytes| != len)
  {
    var key := ObjectKey(expected);
    if key in blobs {
      ObjectKeyInjective(expected, sha(blobs[key].bytes));
    }
  }

  /** The digests recorded with the stored objects are right. */
  ghost predicate Honest(sha: Bytes -> Text, blobs: Blobs) {
    forall k :: k in blobs && blobs[k].sha256.Some? ==> blobs[k].sha256.value == sha(blobs[k].bytes)
  }

  /** An honest store never contradicts a file that is read as it is. */
  lemma HonestCheck(sha: Bytes -> Text, blobs: Blobs, bytes: Bytes)
    requires Injective(sha) && Cas(sha, blobs) && Honest(sha, blobs)
    ensures var v := VerifyExisting(blobs, sha(bytes), |bytes|, false);
            v.Missing? || v.Verified? || v.Legacy?
  {
    var key := ObjectKey(sha(bytes));
    if key in blobs {
      ObjectKeyInjective(sha(bytes), sha(blobs[key].bytes));
    }
  }
}
