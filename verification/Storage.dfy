/** Object storage with the conditional writes of sections 13.1.1 and 13.1.2 of RFC 9110. */
module Storage {
  import opened Options

  /** SHA-256 and entity tags, idealised as injective images of a body. */
  datatype Digest<+B> = Digest(of: B)

  /** The parts of an object's metadata that a decision ever depends on. */
  datatype Head<+B> = Head(
    etag: Digest<B>,
    version: Option<string>,
    checksum: Option<Digest<B>>,      // the checksum S3 computed, when it has one
    sha256: Option<Digest<B>>,        // the "sha256" user metadata
    lastModified: Option<int>
  )

  datatype Entry<+B> = Entry(body: B, head: Head<B>)

  datatype Condition<+B> = Always | IfNoneMatch | IfMatch(etag: Digest<B>)

  datatype Request<+K, +B> = Get(key: K) | Put(key: K, body: B, condition: Condition<B>)

  datatype Reply<+B> =
    | Found(entry: Entry<B>)
    | Missing
    | Stored
    | ConditionFailed   // S3 answered 412, or 409 ConditionalRequestConflict
    | Broken            // any other exception out of the client

  /** A history of moves that goes on from an earlier one. */
  ghost predicate Continues<M>(earlier: seq<M>, later: seq<M>) {
    earlier <= later
  }

  lemma HistoriesContinue<M(!new)>()
    ensures forall moves: seq<M> :: Continues(moves, moves)
    ensures forall a: seq<M>, b: seq<M>, c: seq<M> :: Continues(a, b) && Continues(b, c) ==> Continues(a, c)
  {
  }

  /** What the network may do to one request. */
  datatype Fault =
    | Healthy
    | RequestLost   // never carried out, the caller sees an exception
    | ReplyLost     // carried out, the caller still sees an exception
    | Conflicted    // a conditional write refused although its condition holds

  const WRITE_TIME: int := 0

  /** The object a successful put leaves behind: its tag and metadata are those of its body. */
  function Written<B>(body: B): Entry<B> {
    Entry(body, Head(Digest(body), None, None, Some(Digest(body)), Some(WRITE_TIME)))
  }

  predicate Admits<K, B(==)>(objects: map<K, Entry<B>>, key: K, condition: Condition<B>) {
    match condition
    case Always => true
    case IfNoneMatch => key !in objects
    case IfMatch(etag) => key in objects && objects[key].head.etag == etag
  }

  /** Whether this request changes the store under this fault. */
  predicate Applies<K, B(==)>(objects: map<K, Entry<B>>, request: Request<K, B>, fault: Fault) {
    && request.Put?
    && Admits(objects, request.key, request.condition)
    && !fault.RequestLost?
    && (fault.Conflicted? ==> request.condition.Always?)
  }

  /** The store after one atomic request. */
  function After<K, B(==)>(objects: map<K, Entry<B>>, request: Request<K, B>, fault: Fault): map<K, Entry<B>> {
    if Applies(objects, request, fault) then objects[request.key := Written(request.body)] else objects
  }

  /** What the caller of one atomic request observes. */
  function Answer<K, B(==)>(objects: map<K, Entry<B>>, request: Request<K, B>, fault: Fault): Reply<B> {
    if fault.RequestLost? || fault.ReplyLost? then Broken
    else match request
      case Get(key) => if key in objects then Found(objects[key]) else Missing
      case Put(_, _, _) => if Applies(objects, request, fault) then Stored else ConditionFailed
  }

  /** What an answer proves about the store it leaves behind. */
  ghost predicate Explains<K, B>(after: map<K, Entry<B>>, request: Request<K, B>, reply: Reply<B>) {
    && (reply.Found? ==> request.Get? && request.key in after && after[request.key] == reply.entry)
    && (reply.Missing? ==> request.Get? && request.key !in after)
    && (reply.Stored? ==> request.Put? && request.key in after && after[request.key] == Written(request.body))
    && (reply.ConditionFailed? ==> request.Put?)
  }

  lemma AnswerExplains<K, B>(objects: map<K, Entry<B>>, request: Request<K, B>, fault: Fault)
    ensures Explains(After(objects, request, fault), request, Answer(objects, request, fault))
  {
  }

  /** The in-memory store of the offline adapter: bodies, tags, counters and scripted races. */
  class InMemoryObjectStorage<K(==), B(==)> {
    var objects: map<K, Entry<B>>
    var getCounts: map<K, nat>
    var putCounts: map<K, nat>
    var conditionalRaces: map<K, B -> B>

    constructor ()
      ensures objects == map[] && getCounts == map[] && putCounts == map[] && conditionalRaces == map[]
    {
      objects, getCounts, putCounts, conditionalRaces := map[], map[], map[], map[];
    }

    /** Install an object unconditionally, with the tag of its body unless one is given. */
    method Seed(key: K, body: B, etag: Option<Digest<B>>, version: Option<string>,
                checksum: Option<Digest<B>>, sha256: Option<Digest<B>>, lastModified: Option<int>)
      returns (head: Head<B>)
      modifies `objects
      ensures head == Head(if etag.Some? then etag.value else Digest(body), version, checksum, sha256,
                           if lastModified.Some? then lastModified else Some(WRITE_TIME))
      ensures objects == old(objects)[key := Entry(body, head)]
    {
      head := Head(if etag.Some? then etag.value else Digest(body), version, checksum, sha256,
                   if lastModified.Some? then lastModified else Some(WRITE_TIME));
      objects := objects[key := Entry(body, head)];
    }

    /** Read an object; a pinned version that is not the stored one is as good as missing. */
    method Fetch(key: K, version: Option<string>) returns (reply: Reply<B>)
      modifies `getCounts
      ensures reply == if key in objects && (version.None? || objects[key].head.version == version)
                       then Found(objects[key]) else Missing
      ensures getCounts == if reply.Found? then old(getCounts)[key := Count(old(getCounts), key) + 1]
                           else old(getCounts)
    {
      if key !in objects || (version.Some? && objects[key].head.version != version) {
        return Missing;
      }
      getCounts := getCounts[key := Count(getCounts, key) + 1];
      reply := Found(objects[key]);
    }

    /** Write an object when the condition holds and no scripted writer gets there first. */
    method Store(key: K, body: B, condition: Condition<B>) returns (reply: Reply<B>)
      modifies `objects, `putCounts, `conditionalRaces
      ensures reply == Stored || reply == ConditionFailed
      ensures reply == Stored <==>
              (Admits(old(objects), key, condition) && !(condition.IfNoneMatch? && key in old(conditionalRaces)))
      ensures reply == Stored ==>
                && objects == old(objects)[key := Written(body)]
                && putCounts == old(putCounts)[key := Count(old(putCounts), key) + 1]
                && conditionalRaces == old(conditionalRaces)
      ensures reply == ConditionFailed ==> putCounts == old(putCounts)
      ensures !Admits(old(objects), key, condition) ==>
                objects == old(objects) && conditionalRaces == old(conditionalRaces)
      ensures reply == ConditionFailed && Admits(old(objects), key, condition) ==>
                && conditionalRaces == old(conditionalRaces) - {key}
                && objects.Keys == old(objects).Keys + {key}
                && objects[key].body == old(conditionalRaces)[key](body)
                && (forall k :: k in old(objects) && k != key ==> objects[k] == old(objects)[k])
    {
      if !Admits(objects, key, condition) {
        return ConditionFailed;
      }
      if condition.IfNoneMatch? && key in conditionalRaces {
        var raced := conditionalRaces[key](body);
        conditionalRaces := conditionalRaces - {key};
        var _ := Seed(key, raced, None, None, None, Some(Digest(body)), None);
        return ConditionFailed;
      }
      var _ := Seed(key, body, None, None, None, Some(Digest(body)), None);
      putCounts := putCounts[key := Count(putCounts, key) + 1];
      reply := Stored;
    }
  }

  function Count<K(==)>(counts: map<K, nat>, key: K): nat {
    if key in counts then counts[key] else 0
  }
}
