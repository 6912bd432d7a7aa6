/** The code of the upload handler: validation, then the saga of object, row and job with its compensations, run
    against services that other processes change between any two of its steps. */
module UploadHandler {
  import opened Basics
  import opened GoPaths
  import opened TrackKeys
  import opened ObjectKeys
  import opened Platform
  import opened PlatformInvariant
  import opened PlatformTheorems
  import opened Services

  // ---------------------------------------------------------------- validation

  /** A parsed request; `parsed`, `hasFile` and `readable` tell whether reading the form, finding the file part and
      reading its bytes succeed. */
  datatype Request = Request(parsed: bool, artist: string, title: string, hasFile: bool, filename: string,
                             readable: bool, body: Bytes)

  /** The length of a string in bytes, as Go counts it. */
  function Utf8Length(s: string): nat {
    if s == "" then 0 else
      var n := s[0] as int;
      (if n < 0x80 then 1 else if n < 0x800 then 2 else if n < 0x10000 then 3 else 4) + Utf8Length(s[1..])
  }

  /** The status of a request refused before anything is stored. */
  function Refusal(r: Request): Option<nat> {
    var artist, title := TrimSpace(r.artist), TrimSpace(r.title);
    if !r.parsed then Some(413)
    else if artist == "" || title == "" then Some(400)
    else if Utf8Length(artist) > 255 || Utf8Length(title) > 255 then Some(400)
    else if !r.hasFile then Some(400)
    else if !IsSupportedAudio(r.filename) then Some(415)
    else if !r.readable then Some(400)
    else None
  }

  /** The number of characters whose code is at least `n`. */
  function CountFrom(s: string, n: int): nat {
    if s == "" then 0 else (if s[0] as int >= n then 1 else 0) + CountFrom(s[1..], n)
  }

  /** Each character takes one byte, and one more from U+0080, U+0800 and U+10000 on. */
  lemma {:induction false} Utf8LengthExact(s: string)
    ensures Utf8Length(s) == |s| + CountFrom(s, 0x80) + CountFrom(s, 0x800) + CountFrom(s, 0x10000)
  {
    if s != "" {
      Utf8LengthExact(s[1..]);
    }
  }

  /** A form field is more than space and at most 255 bytes long. */
  predicate GoodField(field: string) {
    !AllSpace(field) && Utf8Length(TrimSpace(field)) <= 255
  }

  /** A request is refused as too large exactly if its form cannot be read, as unsupported exactly if nothing comes
      before its file name, and not at all exactly if all its parts are good. */
  lemma RefusalIff(r: Request)
    ensures Refusal(r) == Some(413) <==> !r.parsed
    ensures var name := TrimSpace(r.filename);
            var good := r.parsed && GoodField(r.artist) && GoodField(r.title) && r.hasFile;
            var audio := EndsIn(name, ".mp3") || EndsIn(name, ".flac") || EndsIn(name, ".wav");
            && (Refusal(r) == Some(415) <==> good && !audio)
            && (Refusal(r) == None <==> good && audio && r.readable)
            && (Refusal(r).Some? ==> Refusal(r).value in {400, 413, 415})
  {
    TrimmedAwayIff(r.artist);
    TrimmedAwayIff(r.title);
    SupportedIff(r.filename);
    hide TrimSpace, EndsIn, IsSupportedAudio, Utf8Length;
  }

  // ---------------------------------------------------------------- the steps of one upload

  /** Upload `u` stands at `up`. */
  ghost predicate Stands(c: Cluster, u: UploadId, up: Upload)
    reads c
  {
    c.Valid() && u in c.uploads && c.uploads[u] == up && up.alive
  }

  method Interfere(c: Cluster, ghost u: UploadId, ghost up: Upload)
    requires Stands(c, u, up)
    modifies c
    ensures Stands(c, u, up) && old(c.trace) <= c.trace && UploadPart(c.trace, u) == old(UploadPart(c.trace, u))
  {
    hide Init, Can, Apply, Legal, Exec, UploadPart;
    ghost var before := c.trace;
    c.OthersAroundUpload(u);
    UploadUndisturbed(c.origin, before, c.trace, u);
  }

  method BeginUpload(c: Cluster, ghost u: UploadId, name: string, ext: string, body: Bytes)
    requires c.Valid() && CanBegin(c.Now(), u, name, ext)
    modifies c
    ensures Stands(c, u, Upload(Raw(name, ext), body, None, false, false, true, Storing))
    ensures old(c.trace) <= c.trace && UploadPart(c.trace, u) == old(UploadPart(c.trace, u)) + [Begin(name, ext, body)]
  {
    hide Init, Legal, Exec, UploadPart;
    c.Record(c.Now(), ByUpload(u, Begin(name, ext, body)));
  }

  /** TrackStorage.PutOriginal. The key always exists here; a public URL that cannot be built is an error after the
      put. */
  method StoreOriginal(c: Cluster, ghost u: UploadId, ghost up: Upload, key: ObjectKey, body: Bytes, put: Call,
                       url: bool)
    returns (ok: bool)
    requires Stands(c, u, up) && up.pc == Storing && up.key == key && up.body == body
    modifies c
    ensures ok <==> put.Ok? && url
    ensures Stands(c, u, up.(pc := if ok then Inserting else Refused(false))) && old(c.trace) <= c.trace
    ensures key in c.objects <==> put.Took()
    ensures UploadPart(c.trace, u) == old(UploadPart(c.trace, u)) + [Store(if ok then Ok else Lost(put.Took()))]
  {
    Interfere(c, u, up);
    OwnObject(c, u);
    hide Init, Legal, Exec, UploadPart;
    ghost var before := c.Now();
    if put.Took() {
      c.objects := c.objects[key := body];
    }
    ok := put.Ok? && url;
    StoreInTrace(c, u, up, if ok then Ok else Lost(put.Took()), before);
  }

  /** The object of an upload is there from its put to its object delete and not before. */
  lemma OwnObject(c: Cluster, u: UploadId)
    requires c.Valid() && u in c.uploads
    ensures c.uploads[u].pc.Storing? ==> c.uploads[u].key !in c.objects
    ensures c.uploads[u].pc.UndoingObject? ==> c.uploads[u].key in c.objects
    ensures c.uploads[u].pc.Refused? ==> (HasRow(c.rows, c.uploads[u]) <==> c.uploads[u].torn)
  {
    hide RowsOk, JobsOk, Exclusive, Results, Offsets;
    c.ValidIsReachable();
    ReachableInv(c.Now());
    assert UploadOk(c.rows, c.objects, c.log, c.uploads[u]);
  }

  /** The services are as a run left them, but for what the code has just written and not yet entered. */
  ghost predicate Settling(c: Cluster, before: State)
    reads c
  {
    && Init(c.origin) && Legal(c.origin, c.trace) && Exec(c.origin, c.trace) == before
    && c.positions.Keys == c.places.Keys && before.creator.Keys <= c.issued
  }

  ghost method StoreInTrace(c: Cluster, u: UploadId, up: Upload, call: Call, before: State)
    requires Settling(c, before) && u in before.uploads && before.uploads[u] == up && up.alive && up.pc == Storing
    requires c.Now() == before.(objects := if call.Took() then before.objects[up.key := up.body] else before.objects)
    modifies c`places, c`uploads, c`creator, c`made, c`abandoned, c`trace
    ensures Stands(c, u, up.(pc := if call.Ok? then Inserting else Refused(false))) && old(c.trace) <= c.trace
    ensures UploadPart(c.trace, u) == old(UploadPart(c.trace, u)) + [Store(call)]
  {
    hide Init, Legal, Exec, UploadPart;
    c.Record(before, ByUpload(u, Store(call)));
  }

  /** Finite sets of ids never exhaust the ids without a slash. */
  lemma FreshIdExists(ids: set<string>)
    ensures exists t: string :: t !in ids && SlashFree(t)
  {
    var t := LongId(ids);
    assert t !in ids && SlashFree(t);
  }

  ghost function LongId(ids: set<string>): (t: string)
    ensures SlashFree(t) && forall x <- ids :: |x| < |t|
  {
    if ids == {} then "a" else
      var x :| x in ids;
      var rest := LongId(ids - {x});
      if |x| < |rest| then rest else seq(|x| + 1, _ => 'a')
  }

  /** CreateTrack: the database generates a fresh id for the row. */
  method CreateTrack(c: Cluster, ghost u: UploadId, ghost up: Upload, key: ObjectKey, size: nat, call: Call)
    returns (t: TrackId)
    requires Stands(c, u, up) && up.pc == Inserting && up.key == key && |up.body| == size
    modifies c
    ensures old(c.trace) <= c.trace
    ensures Stands(c, u, if call.Ok? then up.(row := Some(t), sent := true, pc := Publishing)
                         else if call.Took() then up.(row := Some(t), torn := true, pc := UndoingObject)
                         else up.(pc := UndoingObject))
    ensures UploadPart(c.trace, u) == old(UploadPart(c.trace, u)) + [Insert(t, call)]
  {
    Interfere(c, u, up);
    hide Init, Legal, Exec, UploadPart;
    ghost var before := c.Now();
    FreshIdExists(c.issued);
    t :| t !in c.issued && SlashFree(t);
    c.issued := c.issued + {t};
    if call.Took() {
      c.rows := c.rows[t := Row(Pending, key, size, None)];
    }
    InsertInTrace(c, u, up, t, call, before);
  }

  ghost method InsertInTrace(c: Cluster, u: UploadId, up: Upload, t: TrackId, call: Call, before: State)
    requires Settling(c, before) && t in c.issued && t !in before.creator && SlashFree(t)
    requires u in before.uploads && before.uploads[u] == up && up.alive && up.pc == Inserting
    requires c.Now() == before.(rows := if call.Took() then before.rows[t := Row(Pending, up.key, |up.body|, None)]
                                        else before.rows)
    modifies c`places, c`uploads, c`creator, c`made, c`abandoned, c`trace
    ensures old(c.trace) <= c.trace
    ensures Stands(c, u, if call.Ok? then up.(row := Some(t), sent := true, pc := Publishing)
                         else if call.Took() then up.(row := Some(t), torn := true, pc := UndoingObject)
                         else up.(pc := UndoingObject))
    ensures UploadPart(c.trace, u) == old(UploadPart(c.trace, u)) + [Insert(t, call)]
  {
    hide Init, Legal, Exec, UploadPart;
    c.Record(before, ByUpload(u, Insert(t, call)));
  }

  /** One write of the job by the broker. */
  method WriteJob(c: Cluster, ghost u: UploadId, ghost up: Upload, t: TrackId, key: ObjectKey, p: Partition)
    requires Stands(c, u, up) && up.pc == Publishing && up.sent && up.row == Some(t) && up.key == key
    requires p in c.log
    modifies c
    ensures Stands(c, u, up) && old(c.trace) <= c.trace && Queued(c.log, t)
    ensures c.log == old(c.log)[p := old(c.log[p]) + [Job(t, key)]]
    ensures UploadPart(c.trace, u) == old(UploadPart(c.trace, u))
  {
    hide Init, Legal, Exec, UploadPart;
    ghost var before := c.Now();
    c.log := c.log[p := c.log[p] + [Job(t, key)]];
    assert c.log[p][|c.log[p]| - 1].track == t;
    c.Record(before, ByUpload(u, Append(p)));
  }

  method FinishPublish(c: Cluster, ghost u: UploadId, ghost up: Upload, ok: bool)
    requires Stands(c, u, up) && up.pc == Publishing && up.row.Some?
    requires ok ==> Queued(c.log, up.row.value)
    modifies c`places, c`uploads, c`creator, c`made, c`abandoned, c`trace
    ensures Stands(c, u, up.(pc := if ok then Created else UndoingRow)) && old(c.trace) <= c.trace
    ensures UploadPart(c.trace, u) == old(UploadPart(c.trace, u)) + [if ok then PublishOk else PublishError]
  {
    hide Init, Legal, Exec, UploadPart;
    if ok {
      c.Record(c.Now(), ByUpload(u, PublishOk));
    } else {
      c.Record(c.Now(), ByUpload(u, PublishError));
    }
  }

  lemma PartitionsNow(c: Cluster)
    requires c.Valid()
    ensures c.log.Keys == c.origin.log.Keys
  {
    hide Init, Legal, Exec;
    RunKeepsPartitions(c.origin, c.trace);
  }

  /** PublishCreated: the broker writes the job if there is such a partition, and the call succeeds exactly if it did
      and acknowledges it. */
  method PublishCreated(c: Cluster, ghost u: UploadId, ghost up: Upload, t: TrackId, key: ObjectKey,
                        target: Option<Partition>, acked: bool)
    returns (ok: bool)
    requires Stands(c, u, up) && up.pc == Publishing && up.sent && up.row == Some(t) && up.key == key
    modifies c
    ensures Stands(c, u, up.(pc := if ok then Created else UndoingRow)) && old(c.trace) <= c.trace
    ensures c.log.Keys == old(c.log.Keys)
    ensures ok <==> acked && target.Some? && target.value in old(c.log)
    ensures target.Some? && target.value in old(c.log) ==> Job(t, key) in c.log[target.value]
    ensures UploadPart(c.trace, u) == old(UploadPart(c.trace, u)) + [if ok then PublishOk else PublishError]
  {
    hide Init, Legal, Exec, Can, Apply, UploadPart;
    PartitionsNow(c);
    Interfere(c, u, up);
    PartitionsNow(c);
    ok := false;
    if target.Some? && target.value in c.log {
      WriteJob(c, u, up, t, key, target.value);
      ok := acked;
    }
    FinishPublish(c, u, up, ok);
  }

  method DeleteTrack(c: Cluster, ghost u: UploadId, ghost up: Upload, t: TrackId, call: Call)
    requires Stands(c, u, up) && up.pc == UndoingRow && up.row == Some(t)
    modifies c
    ensures old(c.trace) <= c.trace
    ensures Stands(c, u, up.(pc := UndoingObject, torn := up.torn || !call.Took()))
    ensures call.Took() ==> t !in c.rows
    ensures UploadPart(c.trace, u) == old(UploadPart(c.trace, u)) + [UndoRow(call)]
  {
    Interfere(c, u, up);
    hide Init, Legal, Exec, UploadPart;
    ghost var before := c.Now();
    if call.Took() {
      c.rows := c.rows - {t};
    }
    RowDeleteInTrace(c, u, up, t, call, before);
  }

  ghost method RowDeleteInTrace(c: Cluster, u: UploadId, up: Upload, t: TrackId, call: Call, before: State)
    requires Settling(c, before)
    requires u in before.uploads && before.uploads[u] == up && up.alive && up.pc == UndoingRow && up.row == Some(t)
    requires c.Now() == before.(rows := if call.Took() then before.rows - {t} else before.rows)
    modifies c`places, c`uploads, c`creator, c`made, c`abandoned, c`trace
    ensures Stands(c, u, up.(pc := UndoingObject, torn := up.torn || !call.Took())) && old(c.trace) <= c.trace
    ensures UploadPart(c.trace, u) == old(UploadPart(c.trace, u)) + [UndoRow(call)]
  {
    hide Init, Legal, Exec, UploadPart;
    c.Record(before, ByUpload(u, UndoRow(call)));
  }

  method DeleteObject(c: Cluster, ghost u: UploadId, ghost up: Upload, key: ObjectKey, call: Call)
    requires Stands(c, u, up) && up.pc == UndoingObject && up.key == key
    modifies c
    ensures Stands(c, u, up.(pc := Refused(call.Took()))) && old(c.trace) <= c.trace
    ensures key in c.objects <==> !call.Took()
    ensures UploadPart(c.trace, u) == old(UploadPart(c.trace, u)) + [UndoObject(call)]
  {
    Interfere(c, u, up);
    OwnObject(c, u);
    hide Init, Legal, Exec, UploadPart;
    ghost var before := c.Now();
    if call.Took() {
      c.objects := c.objects - {key};
    }
    ObjectDeleteInTrace(c, u, up, call, before);
  }

  ghost method ObjectDeleteInTrace(c: Cluster, u: UploadId, up: Upload, call: Call, before: State)
    requires Settling(c, before)
    requires u in before.uploads && before.uploads[u] == up && up.alive && up.pc == UndoingObject
    requires c.Now() == before.(objects := if call.Took() then before.objects - {up.key} else before.objects)
    modifies c`places, c`uploads, c`creator, c`made, c`abandoned, c`trace
    ensures Stands(c, u, up.(pc := Refused(call.Took()))) && old(c.trace) <= c.trace
    ensures UploadPart(c.trace, u) == old(UploadPart(c.trace, u)) + [UndoObject(call)]
  {
    hide Init, Legal, Exec, UploadPart;
    c.Record(before, ByUpload(u, UndoObject(call)));
  }

  // ---------------------------------------------------------------- ServeHTTP

  /** What the handler meets: the object id drawn (none if the random source fails), the put and the public URL, the
      insert, the partition the broker writes the job to if any, its acknowledgement, and the two compensations. */
  datatype Fate = Fate(objectId: Option<string>, put: Call, url: bool, insert: Call, target: Option<Partition>,
                       acked: bool, undoRow: Call, undoObject: Call)

  /** The extension of the stored object. */
  function StoredExtension(filename: string): string {
    Lower(Ext(TrimSpace(filename)))
  }

  /** A drawn object id names no object yet. */
  ghost predicate Fresh(s: State, name: string) {
    && (forall v <- s.uploads :: s.uploads[v].key.Raw? ==> s.uploads[v].key.name != name)
    && (forall k <- s.objects | k.Raw? :: k.name != name)
  }

  /** Undo what an upload did after its publish call failed: the row first, then the object. */
  method RollBack(c: Cluster, ghost u: UploadId, ghost up: Upload, t: TrackId, key: ObjectKey, undoRow: Call,
                  undoObject: Call)
    requires Stands(c, u, up) && up.pc == UndoingRow && up.row == Some(t) && up.key == key
    modifies c
    ensures old(c.trace) <= c.trace
    ensures Stands(c, u, up.(pc := Refused(undoObject.Took()), torn := up.torn || !undoRow.Took()))
    ensures key in c.objects <==> !undoObject.Took()
    ensures UploadPart(c.trace, u) == old(UploadPart(c.trace, u)) + [UndoRow(undoRow), UndoObject(undoObject)]
  {
    hide UploadPart;
    DeleteTrack(c, u, up, t, undoRow);
    DeleteObject(c, u, up.(pc := UndoingObject, torn := up.torn || !undoRow.Took()), key, undoObject);
  }

  /** A request that was answered 500 leaves its object: without a stored and addressable object nothing is taken back,
      and otherwise the object delete has to take effect. */
  predicate ObjectStays(fate: Fate) {
    if fate.put.Ok? && fate.url then !fate.undoObject.Took() else fate.put.Took()
  }

  /** A request that was answered 500 leaves its row: the insert took effect while reporting an error, so that nothing
      takes it back, or the row delete had no effect. */
  predicate RowStays(fate: Fate) {
    fate.put.Ok? && fate.url && (fate.insert == Lost(true) || (fate.insert.Ok? && fate.undoRow == Lost(false)))
  }

  /** The broker has the partition, and acknowledges the job it wrote there. */
  predicate Published(fate: Fate, partitions: set<Partition>) {
    fate.target.Some? && fate.target.value in partitions && fate.acked
  }

  /** What an upload does after it has begun; `t` is the row id the database generates. */
  function SagaActs(fate: Fate, t: TrackId, published: bool): seq<UploadAct> {
    if !(fate.put.Ok? && fate.url) then [Store(Lost(fate.put.Took()))]
    else if !fate.insert.Ok? then [Store(Ok), Insert(t, fate.insert), UndoObject(fate.undoObject)]
    else if published then [Store(Ok), Insert(t, fate.insert), PublishOk]
    else [Store(Ok), Insert(t, fate.insert), PublishError, UndoRow(fate.undoRow), UndoObject(fate.undoObject)]
  }

  /** The saga from the stored object on. */
  method StoreAndPublish(c: Cluster, ghost u: UploadId, ghost up: Upload, key: ObjectKey, body: Bytes, fate: Fate)
    returns (status: nat, ghost t: TrackId)
    requires Stands(c, u, up) && up == Upload(key, body, None, false, false, true, Storing)
    modifies c
    ensures c.Valid() && old(c.trace) <= c.trace
    ensures u in c.uploads && c.uploads[u].key == key && c.uploads[u].body == body
    ensures if status == 201 then c.uploads[u].pc.Created? else status == 500 && c.uploads[u].pc.Refused?
    ensures status == 201 <==> fate.put.Ok? && fate.url && fate.insert.Ok? && Published(fate, old(c.log.Keys))
    ensures UploadPart(c.trace, u)
            == old(UploadPart(c.trace, u)) + SagaActs(fate, t, Published(fate, old(c.log.Keys)))
    ensures c.uploads[u].torn <==> status == 500 && RowStays(fate)
    ensures status == 500 ==> (key in c.objects <==> ObjectStays(fate))
  {
    hide Init, Legal, Exec, Can, Apply, Cluster.Valid, UploadPart;
    t := "";
    PartitionsNow(c);
    var stored := StoreOriginal(c, u, up, key, body, fate.put, fate.url);
    if !stored {
      return 500, t;
    }
    ghost var up1 := up.(pc := Inserting);
    var row := CreateTrack(c, u, up1, key, |body|, fate.insert);
    t := row;
    if !fate.insert.Ok? {
      DeleteObject(c, u, if fate.insert.Took() then up1.(row := Some(t), torn := true, pc := UndoingObject)
                         else up1.(pc := UndoingObject), key, fate.undoObject);
      return 500, t;
    }
    ghost var up2 := up1.(row := Some(t), sent := true, pc := Publishing);
    PartitionsNow(c);
    var published := PublishCreated(c, u, up2, row, key, fate.target, fate.acked);
    if !published {
      RollBack(c, u, up2.(pc := UndoingRow), row, key, fate.undoRow, fate.undoObject);
      return 500, t;
    }
    status := 201;
  }

  /** A request that fails validation does nothing. Any other stores its object under raw/{object id}/original{ext},
      takes exactly the steps its outcomes allow, and is answered 201 exactly if object, row and job were written and
      answered for; row, object, with the uploaded bytes, and job are then there whatever other processes did
      meanwhile. After a 500 exactly what `ObjectStays` and `RowStays` say is left. */
  method ServeHTTP(c: Cluster, ghost u: UploadId, r: Request, fate: Fate) returns (status: nat, ghost t: TrackId)
    requires c.Valid() && u !in c.uploads
    requires fate.objectId.Some? ==> IsObjectId(fate.objectId.value) && Fresh(c.Now(), fate.objectId.value)
    modifies c
    ensures c.Valid() && old(c.trace) <= c.trace
    ensures Refusal(r).Some? ==> status == Refusal(r).value && c.trace == old(c.trace)
    ensures Refusal(r).None? && fate.objectId.None? ==> status == 500 && c.trace == old(c.trace)
    ensures Refusal(r).None? && fate.objectId.Some? ==>
              && u in c.uploads && c.uploads[u].body == r.body
              && c.uploads[u].key == Raw(fate.objectId.value, StoredExtension(r.filename))
              && OriginalKey(fate.objectId.value, r.filename) == Success(Render(c.uploads[u].key))
              && (if status == 201 then c.uploads[u].pc.Created? else status == 500 && c.uploads[u].pc.Refused?)
              && (status == 500 ==>
                    && (c.uploads[u].key in c.objects <==> ObjectStays(fate))
                    && (HasRow(c.rows, c.uploads[u]) <==> RowStays(fate)))
    ensures status == 201 <==>
              && Refusal(r).None? && fate.objectId.Some? && fate.put.Ok? && fate.url && fate.insert.Ok?
              && Published(fate, old(c.log.Keys))
    ensures UploadPart(c.trace, u)
            == old(UploadPart(c.trace, u))
               + if Refusal(r).Some? || fate.objectId.None? then []
                 else [Begin(fate.objectId.value, StoredExtension(r.filename), r.body)]
                      + SagaActs(fate, t, Published(fate, old(c.log.Keys)))
    ensures status == 201 ==>
              && u in c.uploads && HasRow(c.rows, c.uploads[u]) && HasObject(c.objects, c.uploads[u])
              && Queued(c.log, c.uploads[u].row.value)
  {
    hide Init, Legal, Exec, Can, Apply, Cluster.Valid, Render, OriginalKey, IsSupportedAudio, StoredExtension;
    hide ObjectStays, RowStays, UploadPart, SagaActs, Published;
    t := "";
    PartitionsNow(c);
    var artist, title := TrimSpace(r.artist), TrimSpace(r.title);
    if !r.parsed {
      return 413, t;
    }
    if artist == "" || title == "" {
      return 400, t;
    }
    if Utf8Length(artist) > 255 || Utf8Length(title) > 255 {
      return 400, t;
    }
    if !r.hasFile {
      return 400, t;
    }
    if !IsSupportedAudio(r.filename) {
      return 415, t;
    }
    if !r.readable {
      return 400, t;
    }
    if fate.objectId.None? {
      return 500, t;
    }
    var name, ext := fate.objectId.value, StoredExtension(r.filename);
    KeyIsRendered(name, r.filename);
    FreshCanBegin(c.Now(), u, name, ext);
    BeginUpload(c, u, name, ext, r.body);
    PartitionsNow(c);
    status, t := StoreAndPublish(c, u, Upload(Raw(name, ext), r.body, None, false, false, true, Storing),
                                 Raw(name, ext), r.body, fate);
    if status == 201 {
      CreatedIsComplete(c, u);
    } else {
      OwnObject(c, u);
    }
  }

  lemma KeyIsRendered(name: string, filename: string)
    requires IsSupportedAudio(filename) && IsObjectId(name)
    ensures var k := Raw(name, StoredExtension(filename));
            WellFormed(k) && OriginalKey(name, filename) == Success(Render(k))
  {
    OriginalKeyRenders(name, filename);
  }

  lemma FreshCanBegin(s: State, u: UploadId, name: string, ext: string)
    requires u !in s.uploads && Fresh(s, name) && WellFormed(Raw(name, ext))
    ensures CanBegin(s, u, name, ext)
  {
  }

  lemma CreatedIsComplete(c: Cluster, u: UploadId)
    requires c.Valid() && u in c.uploads && c.uploads[u].pc.Created?
    ensures HasRow(c.rows, c.uploads[u]) && HasObject(c.objects, c.uploads[u]) && Queued(c.log, c.uploads[u].row.value)
  {
    hide RowsOk, JobsOk, Exclusive, Results, Offsets, Queued;
    c.ValidIsReachable();
    ReachableInv(c.Now());
    assert UploadOk(c.rows, c.objects, c.log, c.uploads[u]);
  }
}
