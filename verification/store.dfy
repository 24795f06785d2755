/** The record store (`useRecordStore`): the current document's title and
    chunk records, the registry of saved titles and the key-value storage
    the documents are saved to. The JSON text written to storage is modelled
    as a lossless encoding: a storage entry holds the list of plain record
    objects that `JSON.stringify` wrote and `JSON.parse` gives back. */
module Store {
  import opened Records
  import opened FirstMatch

  /** Title of the working document on first start. */
  const InitialTitle := "Chunks"

  /** Prefix of the storage key of a saved document. */
  const KeyPrefix := "AL_records_"

  /** Prefix of the title given to a new document. */
  const NewTitlePrefix := "New "

  /** Storage key of the document saved under `title`. */
  function RecordsKey(title: string): (key: string)
    ensures |key| == |KeyPrefix| + |title|
    ensures key[..|KeyPrefix|] == KeyPrefix && key[|KeyPrefix|..] == title
  {
    KeyPrefix + title
  }

  /** Distinct titles are saved under distinct keys, so saving one document
      never overwrites another. */
  lemma RecordsKeyInjective(t1: string, t2: string)
    requires RecordsKey(t1) == RecordsKey(t2)
    ensures t1 == t2
  {
    assert t1 == RecordsKey(t1)[|KeyPrefix|..];
  }

  ghost predicate NoDuplicates(s: seq<string>)
  {
    forall i, j :: 0 <= i < j < |s| ==> s[i] != s[j]
  }

  /** The registry after saving `title`: `title` is appended when it is not
      already listed. */
  function Register(registry: seq<string>, title: string): (r: seq<string>)
    ensures title in r
    ensures registry <= r && |r| <= |registry| + 1
    ensures forall t :: t in r <==> t in registry || t == title
    ensures NoDuplicates(registry) ==> NoDuplicates(r)
  {
    if title in registry then registry else registry + [title]
  }

  /** Saving the same title again leaves the registry as it is. */
  lemma RegisterIdempotent(registry: seq<string>, title: string)
    ensures Register(Register(registry, title), title) == Register(registry, title)
  {
  }

  /** Splicing out the record at the first-match index of `id` (nothing when
      it is -1) removes the first match from the export and keeps the list
      free of repeated objects. */
  lemma DeleteSplices(records: seq<ChunkRecord>, id: string, i: int, rest: seq<ChunkRecord>)
    requires Distinct(records)
    requires i == IndexOf(RecordsToJson(records), RecordJsonId, id)
    requires rest == if i == -1 then records else records[..i] + records[i + 1..]
    ensures RecordsToJson(rest) == RemoveFirst(RecordsToJson(records), RecordJsonId, id)
    ensures Distinct(rest)
  {
    RemoveFirstIsSplice(RecordsToJson(records), RecordJsonId, id);
    if i != -1 {
      RecordsToJsonSplice(records, i);
      DistinctSplice(records, i);
    }
  }

  class RecordStore {
    var title: string
    var records: seq<ChunkRecord>
    var registry: seq<string>
    var storage: map<string, seq<RecordJson>>

    ghost predicate Valid()
      reads this
    {
      Distinct(records) && NoDuplicates(registry)
    }

    /** `export_records`: the current records as written by `JSON.stringify`. */
    function ExportRecords(): (json: seq<RecordJson>)
      reads this, records
      ensures |json| == |records|
    {
      RecordsToJson(records)
    }

    /** Store creation on first start: the title "Chunks", two sample records
        and an empty registry, followed by the silent load of "Chunks". */
    constructor (backend: map<string, seq<RecordJson>>, firstId: string, secondId: string)
      ensures Valid()
      ensures title == InitialTitle && registry == [] && storage == backend
      ensures RecordsKey(InitialTitle) in backend ==> ExportRecords() == backend[RecordsKey(InitialTitle)]
      ensures RecordsKey(InitialTitle) !in backend ==>
                ExportRecords() == [DefaultJson(firstId).(front := "消耗精力", back := "<b>expend</b> energy"),
                                    DefaultJson(secondId).(front := "……的精华", back := "the <b>cream/essence</b> of sth")]
    {
      var first := new ChunkRecord.Default(firstId);
      first := first.WithFront("消耗精力");
      first := first.WithBack("<b>expend</b> energy");
      var second := new ChunkRecord.Default(secondId);
      second := second.WithFront("……的精华");
      second := second.WithBack("the <b>cream/essence</b> of sth");
      title := InitialTitle;
      records := [first, second];
      registry := [];
      storage := backend;
      new;
      RecordsToJsonEq(records, [first.ToJson(), second.ToJson()]);
      var _ := LoadRecords(InitialTitle, false);
    }

    /** `add_record`: append a default record with a fresh id. */
    method AddRecord(freshId: string)
      requires Valid()
      modifies this
      ensures Valid()
      ensures |records| == |old(records)| + 1 && records[..|old(records)|] == old(records)
      ensures fresh(records[|old(records)|])
      ensures ExportRecords() == old(ExportRecords()) + [DefaultJson(freshId)]
      ensures title == old(title) && registry == old(registry) && storage == old(storage)
    {
      var r := new ChunkRecord.Default(freshId);
      RecordsToJsonAppend(records, r);
      records := records + [r];
    }

    /** The `findIndex` over the records, by id. */
    method IndexOfRecord(id: string) returns (i: int)
      ensures i == IndexOf(ExportRecords(), RecordJsonId, id)
    {
      i := 0;
      while i < |records| && records[i].id != id
        invariant 0 <= i <= |records|
        invariant forall k :: 0 <= k < i ==> records[k].id != id
      {
        i := i + 1;
      }
      if i == |records| {
        i := -1;
      }
      RecordsToJsonAll(records);
    }

    /** `find_record`: the first record with this id, or else a fresh default
        record that is not put into the list. */
    method FindRecord(id: string, sentinelId: string) returns (r: ChunkRecord)
      ensures var i := IndexOf(ExportRecords(), RecordJsonId, id);
              if i == -1 then fresh(r) && r !in records && r.ToJson() == DefaultJson(sentinelId)
              else r == records[i]
    {
      var i := IndexOfRecord(id);
      if i == -1 {
        r := new ChunkRecord.Default(sentinelId);
      } else {
        r := records[i];
      }
    }

    /** `delete_record`: remove the first record with this id, if any. */
    method DeleteRecord(id: string)
      requires Valid()
      modifies this
      ensures Valid()
      ensures var i := IndexOf(old(ExportRecords()), RecordJsonId, id);
              records == if i == -1 then old(records) else old(records)[..i] + old(records)[i + 1..]
      ensures ExportRecords() == RemoveFirst(old(ExportRecords()), RecordJsonId, id)
      ensures title == old(title) && registry == old(registry) && storage == old(storage)
    {
      ghost var before := records;
      var i := IndexOf(ExportRecords(), RecordJsonId, id);
      if i != -1 {
        records := records[..i] + records[i + 1..];
      }
      DeleteSplices(before, id, i, records);
    }

    /** `add_addition`: append a default addition to the record with this id.
        When no record has the id, the addition goes onto the throw-away
        default record and the store's records do not change. */
    method AddAddition(id: string, sentinelId: string, freshId: string)
      requires Valid()
      modifies records
      ensures var before := old(ExportRecords());
              var i := IndexOf(before, RecordJsonId, id);
              ExportRecords() == if i == -1 then before
                                 else before[i := before[i].(additions := before[i].additions + [Addition.Default(freshId)])]
    {
      ghost var before := ExportRecords();
      ghost var i := IndexOf(before, RecordJsonId, id);
      var record := FindRecord(id, sentinelId);
      assert ExportRecords() == before;
      if i != -1 {
        RecordsToJsonAll(records);
      }
      record.additions := record.additions + [Addition.Default(freshId)];
      if i == -1 {
        assert ExportRecords() == before;
      } else {
        forall k | 0 <= k < |records| && k != i
          ensures records[k].ToJson() == before[k]
        {
          assert records[k] != records[i];
        }
        RecordsToJsonUpdate(records, before, i);
      }
    }

    /** `find_addition`: the first addition with `additionId` of the record
        found by `find_record`, or else a fresh default addition. */
    method FindAddition(chunkId: string, additionId: string, sentinelId: string, freshId: string)
      returns (a: Addition)
      ensures var recs := ExportRecords();
              var i := IndexOf(recs, RecordJsonId, chunkId);
              var j := if i == -1 then -1 else IndexOf(recs[i].additions, AdditionId, additionId);
              a == if j == -1 then Addition.Default(freshId) else recs[i].additions[j]
    {
      ghost var before := ExportRecords();
      ghost var i := IndexOf(before, RecordJsonId, chunkId);
      var record := FindRecord(chunkId, sentinelId);
      assert ExportRecords() == before;
      if i != -1 {
        RecordsToJsonAt(records, i);
      }
      var j := FindIndex(record.additions, AdditionId, additionId);
      if j == -1 {
        a := Addition.Default(freshId);
      } else {
        a := record.additions[j];
      }
    }

    /** `delete_addition`: remove the first addition with `additionId` from
        the record found by `find_record`, if any. */
    method DeleteAddition(chunkId: string, additionId: string, sentinelId: string)
      requires Valid()
      modifies records
      ensures var before := old(ExportRecords());
              var i := IndexOf(before, RecordJsonId, chunkId);
              ExportRecords() == if i == -1 then before
                                 else before[i := before[i].(additions := RemoveFirst(before[i].additions, AdditionId, additionId))]
    {
      ghost var before := ExportRecords();
      ghost var i := IndexOf(before, RecordJsonId, chunkId);
      var record := FindRecord(chunkId, sentinelId);
      assert ExportRecords() == before;
      if i != -1 {
        RecordsToJsonAll(records);
      }
      RemoveAddition(record, additionId);
      if i == -1 {
        assert ExportRecords() == before;
      } else {
        forall k | 0 <= k < |records| && k != i
          ensures records[k].ToJson() == before[k]
        {
          assert records[k] != records[i];
        }
        RecordsToJsonUpdate(records, before, i);
      }
    }

    /** The `findIndex` and `splice` of `delete_addition` on the record found:
        the first addition with `additionId` goes, the others stay in order. */
    static method RemoveAddition(record: ChunkRecord, additionId: string)
      modifies record
      ensures record.ToJson() == old(record.ToJson()).(additions := RemoveFirst(old(record.additions), AdditionId, additionId))
    {
      var additions := record.additions;
      var j := IndexOf(additions, AdditionId, additionId);
      RemoveFirstIsSplice(additions, AdditionId, additionId);
      if j != -1 {
        record.additions := additions[..j] + additions[j + 1..];
      }
    }

    /** `save_records`: register the title and write the records under its key. */
    method SaveRecords()
      requires Valid()
      modifies this
      ensures Valid()
      ensures registry == Register(old(registry), title)
      ensures storage == old(storage)[RecordsKey(title) := ExportRecords()]
      ensures title == old(title) && records == old(records)
    {
      if title !in registry {
        registry := registry + [title];
      }
      storage := storage[RecordsKey(title) := ExportRecords()];
    }

    /** `load_records`: replace the records by the ones saved under `t` and
        take `t` as the title; when nothing is saved under `t`, change
        nothing (and raise the "not found" alert when interactive). */
    method LoadRecords(t: string, interactive: bool) returns (alerted: bool)
      requires Valid()
      modifies this
      ensures Valid()
      ensures alerted <==> interactive && RecordsKey(t) !in storage
      ensures registry == old(registry) && storage == old(storage)
      ensures RecordsKey(t) in storage ==>
                title == t && ExportRecords() == storage[RecordsKey(t)]
                && forall k :: 0 <= k < |records| ==> fresh(records[k])
      ensures RecordsKey(t) !in storage ==> title == old(title) && records == old(records)
    {
      var key := RecordsKey(t);
      if key !in storage {
        alerted := interactive;
        return;
      }
      alerted := false;
      var saved := storage[key];
      var loaded: seq<ChunkRecord> := [];
      while |loaded| < |saved|
        invariant |loaded| <= |saved|
        invariant Distinct(loaded)
        invariant unchanged(this)
        invariant forall k :: 0 <= k < |loaded| ==> fresh(loaded[k]) && loaded[k].ToJson() == saved[k]
      {
        var r := new ChunkRecord.FromJson(saved[|loaded|]);
        loaded := loaded + [r];
      }
      RecordsToJsonEq(loaded, saved);
      records := loaded;
      title := t;
    }

    /** `add_new_records`: save the current document, then start an empty one
        titled "New " followed by a fresh identifier. */
    method AddNewRecords(freshId: string)
      requires Valid()
      modifies this
      ensures Valid()
      ensures registry == Register(old(registry), old(title))
      ensures storage == old(storage)[RecordsKey(old(title)) := old(ExportRecords())]
      ensures title == NewTitlePrefix + freshId && records == []
    {
      SaveRecords();
      title := NewTitlePrefix + freshId;
      records := [];
    }
  }

  /** Saving the current document and then loading its title gives back the
      same title and the same records. */
  method SaveThenLoad(store: RecordStore) returns (alerted: bool)
    requires store.Valid()
    modifies store
    ensures store.Valid() && !alerted
    ensures store.title == old(store.title) && store.ExportRecords() == old(store.ExportRecords())
    ensures store.registry == Register(old(store.registry), old(store.title))
  {
    store.SaveRecords();
    alerted := store.LoadRecords(store.title, true);
  }

  /** A record added under an id that no record has yet (the uniqueness
      `nanoid` provides) is the one `find_record` then returns, still a
      default record. */
  method AddThenFind(store: RecordStore, freshId: string, sentinelId: string) returns (r: ChunkRecord)
    requires store.Valid()
    requires IndexOf(store.ExportRecords(), RecordJsonId, freshId) == -1
    modifies store
    ensures store.Valid() && |store.records| == |old(store.records)| + 1
    ensures r == store.records[|old(store.records)|] && r.ToJson() == DefaultJson(freshId)
  {
    store.AddRecord(freshId);
    ghost var recs := store.ExportRecords();
    assert recs[|recs| - 1].id == freshId;
    RecordsToJsonAt(store.records, |recs| - 1);
    r := store.FindRecord(freshId, sentinelId);
  }
}
