/** Object keys by their parts, and the strings they stand for in the bucket. */
module ObjectKeys {
  import opened Basics
  import opened GoPaths
  import opened TrackKeys

  /** `Raw` is the original audio of an upload, `Hls` one file of a conversion result. */
  datatype ObjectKey = Raw(name: string, ext: string) | Hls(track: string, file: string)

  function HlsName(track: string, file: string): string {
    "hls/" + track + "/" + file
  }

  /** The key as a string. */
  function Render(k: ObjectKey): string {
    match k
    case Raw(name, ext) => RawName(name, ext)
    case Hls(track, file) => HlsName(track, file)
  }

  predicate WellFormed(k: ObjectKey) {
    match k
    case Raw(name, ext) => SlashFree(name) && SlashFree(ext)
    case Hls(track, file) => SlashFree(track) && SlashFree(file)
  }

  lemma HlsNameInjective(t: string, f: string, u: string, g: string)
    requires SlashFree(t) && SlashFree(f) && SlashFree(u) && SlashFree(g)
    ensures HlsName(t, f) == HlsName(u, g) <==> t == u && f == g
  {
    HlsParts(t, f);
    HlsParts(u, g);
    if HlsName(t, f) == HlsName(u, g) {
      assert ["hls", t, f][1] == t && ["hls", u, g][1] == u;
      assert ["hls", t, f][2] == f && ["hls", u, g][2] == g;
    }
  }

  lemma HlsParts(t: string, f: string)
    requires SlashFree(t) && SlashFree(f)
    ensures Split(HlsName(t, f)) == ["hls", t, f]
  {
    JoinThree("hls", t, f);
    SplitJoin(["hls", t, f]);
    assert "hls" + "/" + t + "/" + f == HlsName(t, f);
  }

  /** Distinct keys have distinct names in the bucket. */
  lemma RenderInjective(k: ObjectKey, l: ObjectKey)
    requires WellFormed(k) && WellFormed(l)
    ensures Render(k) == Render(l) <==> k == l
  {
    hide RawName, HlsName;
    match (k, l)
    case (Raw(i, e), Raw(j, h)) => RawNameInjective(i, e, j, h);
    case (Hls(t, f), Hls(u, g)) => HlsNameInjective(t, f, u, g);
    case (Raw(i, e), Hls(u, g)) => RawIsNotHls(i, e, u, g);
    case (Hls(t, f), Raw(j, h)) => RawIsNotHls(j, h, t, f);
  }

  lemma RawIsNotHls(i: string, e: string, u: string, g: string)
    ensures RawName(i, e) != HlsName(u, g)
  {
    assert RawName(i, e)[0] == 'r' && HlsName(u, g)[0] == 'h';
  }

  /** The key the upload handler builds is the name of the raw object of its object id. */
  lemma OriginalKeyRenders(objectId: string, filename: string)
    requires IsSupportedAudio(filename) && IsObjectId(objectId)
    ensures var k := Raw(objectId, Lower(Ext(TrimSpace(filename))));
            WellFormed(k) && OriginalKey(objectId, filename) == Success(Render(k))
  {
    AcceptedUploadHasKey(objectId, filename);
    ExtSlashFree(TrimSpace(filename));
    LowerSlashFree(Ext(TrimSpace(filename)));
    assert forall i | 0 <= i < |objectId| :: HexDigit(objectId[i]) && objectId[i] != '/';
  }

  // ---------------------------------------------------------------- the bucket

  /** The bucket holds exactly the objects, each under its name. */
  ghost predicate Represents(bucket: map<string, Bytes>, objects: map<ObjectKey, Bytes>) {
    && (forall k <- objects :: WellFormed(k) && Render(k) in bucket && bucket[Render(k)] == objects[k])
    && (forall n <- bucket :: exists k :: k in objects && Render(k) == n)
  }

  /** Reading by name reads the object of that key and no other. */
  lemma LookupAgrees(bucket: map<string, Bytes>, objects: map<ObjectKey, Bytes>, k: ObjectKey)
    requires Represents(bucket, objects) && WellFormed(k)
    ensures Render(k) in bucket <==> k in objects
    ensures k in objects ==> bucket[Render(k)] == objects[k]
  {
    hide Render, WellFormed;
    if Render(k) in bucket {
      var l :| l in objects && Render(l) == Render(k);
      RenderInjective(k, l);
    }
  }

  lemma PutAgrees(bucket: map<string, Bytes>, objects: map<ObjectKey, Bytes>, k: ObjectKey, body: Bytes)
    requires Represents(bucket, objects) && WellFormed(k)
    ensures Represents(bucket[Render(k) := body], objects[k := body])
  {
    hide Render, WellFormed;
    var bucket', objects' := bucket[Render(k) := body], objects[k := body];
    forall l <- objects' ensures Render(l) in bucket' && bucket'[Render(l)] == objects'[l] && WellFormed(l) {
      RenderInjective(k, l);
    }
    forall n <- bucket' ensures exists l :: l in objects' && Render(l) == n {
      if n == Render(k) {
        assert k in objects';
      } else {
        var l :| l in objects && Render(l) == n;
        assert l in objects';
      }
    }
  }

  lemma DeleteAgrees(bucket: map<string, Bytes>, objects: map<ObjectKey, Bytes>, k: ObjectKey)
    requires Represents(bucket, objects) && WellFormed(k)
    ensures Represents(bucket - {Render(k)}, objects - {k})
  {
    hide Render, WellFormed;
    var bucket', objects' := bucket - {Render(k)}, objects - {k};
    forall l <- objects' ensures Render(l) in bucket' && bucket'[Render(l)] == objects'[l] && WellFormed(l) {
      RenderInjective(k, l);
    }
    forall n <- bucket' ensures exists l :: l in objects' && Render(l) == n {
      var l :| l in objects && Render(l) == n;
      assert l in objects';
    }
  }
}
