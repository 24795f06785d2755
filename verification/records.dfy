/** The two entities of the record store: an `Addition` (a small
    icon/front/back annotation) and a `ChunkRecord` (one flashcard with its
    ordered additions), together with their plain JSON shapes. */
module Records {

  /** An addition. The store never changes an addition in place, so it is a
      value; its JSON shape has exactly the same four fields, so the value
      is its own JSON form. */
  datatype Addition = Addition(id: string, icon: string, front: string, back: string)
  {
    /** `Addition.fromJSON`: rebuild an addition from its plain JSON object. */
    static function FromJson(json: Addition): (a: Addition)
      ensures a.id == json.id && a.icon == json.icon
      ensures a.front == json.front && a.back == json.back
    {
      Addition(json.id, json.icon, json.front, json.back)
    }

    /** `Addition.default()`: an arrow icon and empty texts under a fresh id. */
    static function Default(freshId: string): (a: Addition)
      ensures a.id == freshId && a.icon == "→" && a.front == "" && a.back == ""
    {
      Addition(freshId, "→", "", "")
    }
  }

  /** The key of an addition for the lookups by id. */
  function AdditionId(a: Addition): string { a.id }

  /** `json.additions.map(Addition.fromJSON)`. */
  function MapFromJson(json: seq<Addition>): (additions: seq<Addition>)
    ensures |additions| == |json|
    ensures forall k :: 0 <= k < |json| ==> additions[k] == Addition.FromJson(json[k])
  {
    if json == [] then [] else [Addition.FromJson(json[0])] + MapFromJson(json[1..])
  }

  /** Rebuilding the additions from their JSON loses and reorders nothing. */
  lemma {:induction false} MapFromJsonCopies(json: seq<Addition>)
    ensures MapFromJson(json) == json
  {
    if json != [] {
      MapFromJsonCopies(json[1..]);
    }
  }

  /** The plain JSON object of a chunk record (`JsonType<ChunkRecord>`). */
  datatype RecordJson = RecordJson(id: string, level: string, front: string, back: string,
                                   additions: seq<Addition>)

  /** The key of a record's JSON for the lookups by id. */
  function RecordJsonId(r: RecordJson): string { r.id }

  /** The JSON of a freshly defaulted record: level "-", empty texts, no additions. */
  function DefaultJson(freshId: string): RecordJson
  {
    RecordJson(freshId, "-", "", "", [])
  }

  /** A chunk record: an object whose text fields and additions list are
      changed in place by the store and by `withFront` / `withBack`. */
  class ChunkRecord {
    var id: string
    var level: string
    var front: string
    var back: string
    var additions: seq<Addition>

    constructor (id: string, level: string, front: string, back: string, additions: seq<Addition>)
      ensures ToJson() == RecordJson(id, level, front, back, additions)
    {
      this.id := id;
      this.level := level;
      this.front := front;
      this.back := back;
      this.additions := additions;
    }

    /** `ChunkRecord.default()`. */
    constructor Default(freshId: string)
      ensures id == freshId && level == "-" && front == "" && back == "" && additions == []
      ensures ToJson() == DefaultJson(freshId)
    {
      id := freshId;
      level := "-";
      front := "";
      back := "";
      additions := [];
    }

    /** `ChunkRecord.fromJSON`: copy the scalar fields and map the additions. */
    constructor FromJson(json: RecordJson)
      ensures id == json.id && level == json.level && front == json.front && back == json.back
      ensures additions == MapFromJson(json.additions)
      ensures ToJson() == json
    {
      id := json.id;
      level := json.level;
      front := json.front;
      back := json.back;
      additions := MapFromJson(json.additions);
      MapFromJsonCopies(json.additions);
    }

    /** What `JSON.stringify` writes for this record. */
    function ToJson(): (json: RecordJson)
      reads this
      ensures json.id == id && json.level == level && json.front == front && json.back == back
      ensures json.additions == additions
    {
      RecordJson(id, level, front, back, additions)
    }

    /** `withFront`: set the front text and hand back the same object. */
    method WithFront(front: string) returns (self: ChunkRecord)
      modifies this
      ensures self == this
      ensures ToJson() == old(ToJson()).(front := front)
    {
      this.front := front;
      self := this;
    }

    /** `withBack`: set the back text and hand back the same object. */
    method WithBack(back: string) returns (self: ChunkRecord)
      modifies this
      ensures self == this
      ensures ToJson() == old(ToJson()).(back := back)
    {
      this.back := back;
      self := this;
    }
  }

  /** `JSON.stringify` of a list of records, as plain objects in the same
      order. The position-wise reading is `RecordsToJsonAt`. */
  function RecordsToJson(records: seq<ChunkRecord>): (json: seq<RecordJson>)
    reads records
    ensures |json| == |records|
  {
    if records == [] then [] else [records[0].ToJson()] + RecordsToJson(records[1..])
  }

  /** Each position of the export is the JSON of the record at that position. */
  lemma {:induction false} RecordsToJsonAt(records: seq<ChunkRecord>, k: nat)
    requires k < |records|
    ensures RecordsToJson(records)[k] == records[k].ToJson()
  {
    if k > 0 {
      RecordsToJsonAt(records[1..], k - 1);
    }
  }

  lemma RecordsToJsonAll(records: seq<ChunkRecord>)
    ensures forall k :: 0 <= k < |records| ==> RecordsToJson(records)[k] == records[k].ToJson()
  {
    forall k | 0 <= k < |records| {
      RecordsToJsonAt(records, k);
    }
  }

  /** The export is determined position by position. */
  lemma RecordsToJsonEq(records: seq<ChunkRecord>, json: seq<RecordJson>)
    requires |json| == |records|
    requires forall k :: 0 <= k < |records| ==> records[k].ToJson() == json[k]
    ensures RecordsToJson(records) == json
  {
    RecordsToJsonAll(records);
  }

  /** Appending a record appends its JSON to the export. */
  lemma RecordsToJsonAppend(records: seq<ChunkRecord>, r: ChunkRecord)
    ensures RecordsToJson(records + [r]) == RecordsToJson(records) + [r.ToJson()]
  {
    RecordsToJsonAll(records);
    RecordsToJsonEq(records + [r], RecordsToJson(records) + [r.ToJson()]);
  }

  /** The export of a concatenation is the concatenation of the exports. */
  lemma {:induction false} RecordsToJsonConcat(front: seq<ChunkRecord>, rest: seq<ChunkRecord>)
    ensures RecordsToJson(front + rest) == RecordsToJson(front) + RecordsToJson(rest)
  {
    if front == [] {
      assert front + rest == rest;
    } else {
      assert (front + rest)[0] == front[0];
      assert (front + rest)[1..] == front[1..] + rest;
      RecordsToJsonConcat(front[1..], rest);
      assert RecordsToJson(front) == [front[0].ToJson()] + RecordsToJson(front[1..]);
    }
  }

  /** The export of a prefix or a suffix is that prefix or suffix of the export. */
  lemma RecordsToJsonSlices(records: seq<ChunkRecord>, i: nat)
    requires i <= |records|
    ensures RecordsToJson(records[..i]) == RecordsToJson(records)[..i]
    ensures RecordsToJson(records[i..]) == RecordsToJson(records)[i..]
  {
    assert records == records[..i] + records[i..];
    RecordsToJsonConcat(records[..i], records[i..]);
  }

  /** Removing one record object from the list removes its JSON at the same
      position from the export. */
  lemma RecordsToJsonSplice(records: seq<ChunkRecord>, i: nat)
    requires i < |records|
    ensures RecordsToJson(records[..i] + records[i + 1..])
            == RecordsToJson(records)[..i] + RecordsToJson(records)[i + 1..]
  {
    RecordsToJsonConcat(records[..i], records[i + 1..]);
    RecordsToJsonSlices(records, i);
    RecordsToJsonSlices(records, i + 1);
  }

  /** When every record but the one at `i` still has the JSON it had, the
      export differs from the old one at position `i` only. */
  lemma RecordsToJsonUpdate(records: seq<ChunkRecord>, before: seq<RecordJson>, i: nat)
    requires |before| == |records| && i < |records|
    requires forall k :: 0 <= k < |records| && k != i ==> records[k].ToJson() == before[k]
    ensures RecordsToJson(records) == before[i := records[i].ToJson()]
  {
    RecordsToJsonEq(records, before[i := records[i].ToJson()]);
  }

  /** No record object occurs twice in the list, so changing one record in
      place changes one position only. */
  ghost predicate Distinct(records: seq<ChunkRecord>)
  {
    forall i, j :: 0 <= i < j < |records| ==> records[i] != records[j]
  }

  /** Taking one object out of a list without repeats leaves a list without repeats. */
  lemma DistinctSplice(records: seq<ChunkRecord>, i: nat)
    requires i < |records| && Distinct(records)
    ensures Distinct(records[..i] + records[i + 1..])
  {
    var rest := records[..i] + records[i + 1..];
    forall a, b | 0 <= a < b < |rest|
      ensures rest[a] != rest[b]
    {
      var a' := if a < i then a else a + 1;
      var b' := if b < i then b else b + 1;
      assert rest[a] == records[a'] && rest[b] == records[b'];
    }
  }
}
