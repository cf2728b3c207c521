/** Blocks and events as the RPC delivers them. Hashes and addresses are lower-case text. */
module ChainTypes {
  import opened Json
  import Operations

  type Hash = Operations.Hash
  type Address = Operations.Address
  type Token = string

  datatype Contract = Contract(chainId: nat, address: Address)

  datatype Ref = Ref(number: nat, hash: Hash)

  datatype Block = Block(number: nat, hash: Hash, parent: Hash, timestamp: int)

  datatype Event = Event(
    contract: Contract,
    number: nat,
    blockHash: Hash,
    tx: Hash,
    txIndex: nat,
    logIndex: nat,
    data: string,
    topics: seq<string>,
    removed: bool,
    signature: string,
    name: string,
    normalized: Json)
}

/** The fingerprints by which the store compares events. */
module Fingerprints {
  import opened ChainTypes
  import opened Json

  function Texts(items: seq<string>): Json { Arr(seq(|items|, i requires 0 <= i < |items| => Str(items[i]))) }

  function NumberText(n: nat): Json { Str(Stable(Num(n))) }

  /** What stays the same when a transaction is mined again elsewhere. */
  function PayloadFields(e: Event): map<string, Json> {
    map["address" := Str(e.contract.address),
        "transactionHash" := Str(e.tx),
        "logIndex" := Num(e.logIndex),
        "data" := Str(e.data),
        "topics" := Texts(e.topics),
        "removed" := Bool(e.removed),
        "eventSignature" := Str(e.signature),
        "eventName" := Str(e.name),
        "normalizedData" := e.normalized]
  }

  function PositionFields(e: Event): map<string, Json> {
    map["blockNumber" := NumberText(e.number),
        "blockHash" := Str(e.blockHash),
        "transactionIndex" := Num(e.txIndex)]
  }

  function EventFingerprint(e: Event): string { Stable(Obj(PayloadFields(e) + PositionFields(e))) }

  function PayloadFingerprint(e: Event): string { Stable(Obj(PayloadFields(e))) }

  function Utf8Length(s: string): nat {
    if s == [] then 0
    else
      var code := s[0] as int;
      (if code < 0x80 then 1 else if code < 0x800 then 2 else if code < 0x1_0000 then 3 else 4) + Utf8Length(s[1..])
  }

  /** `boundedJson` accepts the value. */
  predicate Writable(v: Json) { Safe(v) && Utf8Length(Stable(v)) <= 65_536 }

  predicate SamePayload(a: Event, b: Event) {
    && a.contract.address == b.contract.address && a.tx == b.tx && a.logIndex == b.logIndex && a.data == b.data
    && a.topics == b.topics && a.removed == b.removed && a.signature == b.signature && a.name == b.name
    && a.normalized == b.normalized
  }

  lemma TextsInjective(p: seq<string>, q: seq<string>)
    requires Texts(p) == Texts(q)
    ensures p == q
  {
    assert |Texts(p).items| == |Texts(q).items|;
    forall i | 0 <= i < |p| ensures p[i] == q[i] {
      assert Texts(p).items[i] == Texts(q).items[i];
    }
  }

  lemma PayloadFieldsInjective(a: Event, b: Event)
    requires PayloadFields(a) == PayloadFields(b)
    ensures SamePayload(a, b)
  {
    var p, q := PayloadFields(a), PayloadFields(b);
    assert p["address"] == q["address"] && p["transactionHash"] == q["transactionHash"];
    assert p["logIndex"] == q["logIndex"] && p["data"] == q["data"] && p["removed"] == q["removed"];
    assert p["eventSignature"] == q["eventSignature"] && p["eventName"] == q["eventName"];
    assert p["normalizedData"] == q["normalizedData"] && p["topics"] == q["topics"];
    TextsInjective(a.topics, b.topics);
  }

  /** Payload fingerprints agree exactly on events with the same payload. */
  lemma PayloadFingerprintExact(a: Event, b: Event)
    ensures PayloadFingerprint(a) == PayloadFingerprint(b) <==> SamePayload(a, b)
  {
    StableInjective(Obj(PayloadFields(a)), Obj(PayloadFields(b)));
    if PayloadFields(a) == PayloadFields(b) { PayloadFieldsInjective(a, b); }
  }

  lemma PositionFieldsInjective(a: Event, b: Event)
    requires PositionFields(a) == PositionFields(b)
    ensures a.number == b.number && a.blockHash == b.blockHash && a.txIndex == b.txIndex
  {
    var p, q := PositionFields(a), PositionFields(b);
    assert p["blockNumber"] == q["blockNumber"] && p["blockHash"] == q["blockHash"];
    assert p["transactionIndex"] == q["transactionIndex"];
    StableInjective(Num(a.number), Num(b.number));
  }

  lemma UnionParts<V>(p: map<string, V>, q: map<string, V>, p': map<string, V>, q': map<string, V>)
    requires p.Keys == p'.Keys && q.Keys == q'.Keys && p.Keys !! q.Keys && p + q == p' + q'
    ensures p == p' && q == q'
  {
    forall k | k in p ensures p[k] == p'[k] { assert (p + q)[k] == (p' + q')[k]; }
    forall k | k in q ensures q[k] == q'[k] { assert (p + q)[k] == (p' + q')[k]; }
  }

  lemma FieldNames(e: Event)
    ensures PayloadFields(e).Keys == {"address", "transactionHash", "logIndex", "data", "topics", "removed",
                                      "eventSignature", "eventName", "normalizedData"}
    ensures PositionFields(e).Keys == {"blockNumber", "blockHash", "transactionIndex"}
    ensures PayloadFields(e).Keys !! PositionFields(e).Keys
  {
  }

  /** On one chain, fingerprints agree exactly on equal events. */
  lemma EventFingerprintExact(a: Event, b: Event)
    requires a.contract.chainId == b.contract.chainId
    ensures EventFingerprint(a) == EventFingerprint(b) <==> a == b
  {
    StableInjective(Obj(PayloadFields(a) + PositionFields(a)), Obj(PayloadFields(b) + PositionFields(b)));
    if PayloadFields(a) + PositionFields(a) == PayloadFields(b) + PositionFields(b) {
      assert PayloadFields(a) == PayloadFields(b) && PositionFields(a) == PositionFields(b) by {
        FieldNames(a);
        FieldNames(b);
        UnionParts(PayloadFields(a), PositionFields(a), PayloadFields(b), PositionFields(b));
      }
      PayloadFieldsInjective(a, b);
      PositionFieldsInjective(a, b);
    }
  }
}
