/** Receipt attachments: rows in the database, bytes in object storage, and an order of writes after which a failure or a
    crash at any point leaves at worst an orphaned object, never a row without its bytes. */
module Receipts {
  import opened Wrappers

  // ----- uploads -----

  type byte = x: int | 0 <= x < 256

  datatype ContentType = Jpeg | Png | Webp | Pdf | Unsupported

  function Extension(contentType: ContentType): string {
    match contentType
    case Jpeg => "jpg"
    case Png => "png"
    case Webp => "webp"
    case Pdf => "pdf"
    case Unsupported => ""
  }

  function Signature(contentType: ContentType): seq<byte> {
    match contentType
    case Jpeg => [0xff, 0xd8, 0xff]
    case Png => [0x89, 0x50, 0x4e, 0x47, 0x0d, 0x0a, 0x1a, 0x0a]
    case Webp => [0x52, 0x49, 0x46, 0x46]
    case Pdf => [0x25, 0x50, 0x44, 0x46, 0x2d]
    case Unsupported => []
  }

  /** What an accepted upload is. */
  predicate IsUpload(contentType: ContentType, data: seq<byte>, maxBytes: nat) {
    && !contentType.Unsupported? && 0 < |data| <= maxBytes && Signature(contentType) <= data
    && (contentType.Webp? ==> |data| >= 12 && data[8..12] == [0x57, 0x45, 0x42, 0x50])
  }

  // ----- the two stores -----

  /** receipts/user/transaction/uuid.extension; the uuid is a number no earlier key has. */
  datatype Key = Key(user: nat, transaction: nat, uuid: nat, extension: string)

  datatype Image = Image(key: Key, contentType: ContentType, fileName: string, size: nat)

  datatype Receipt = Receipt(details: string, images: seq<Image>)

  /** At most one receipt per transaction. */
  type Tables = map<nat, Receipt>

  type Objects = map<Key, seq<byte>>

  datatype World = World(committed: Tables, objects: Objects, uuids: nat)

  // ----- what can go wrong -----

  datatype Report = Fine | Raises | Crashes

  /** One external effect: how it is reported, and whether a reported failure happened all the same. */
  datatype Effect = Effect(happened: bool, report: Report)

  predicate Took(e: Effect) {
    e.report == Fine || e.happened
  }

  function First(effects: seq<Effect>): Effect {
    if effects == [] then Effect(true, Fine) else effects[0]
  }

  function Rest(effects: seq<Effect>): seq<Effect> {
    if effects == [] then [] else effects[1..]
  }

  datatype Failure = NotFound | InvalidUpload | Conflict | StorageFailed | CommitFailed | Crashed

  // ----- the operations, as functions of the effects -----

  datatype Upload = Upload(contentType: ContentType, fileName: string, data: seq<byte>)

  datatype Limits = Limits(maxBytes: nat, maxImages: nat)

  /** Never empty, and short enough for its column. */
  function FileName(name: string, contentType: ContentType): (r: string)
    ensures 0 < |r| <= 255
  {
    if name == "" then "receipt." + Extension(contentType) else if |name| > 255 then name[..255] else name
  }

  function ReceiptIn(tables: Tables, transaction: nat): Receipt {
    if transaction in tables then tables[transaction] else Receipt("", [])
  }

  function WithImage(tables: Tables, transaction: nat, image: Image): Tables {
    var receipt := ReceiptIn(tables, transaction);
    tables[transaction := receipt.(images := receipt.images + [image])]
  }

  function NewImage(user: nat, transaction: nat, uuid: nat, upload: Upload): Image {
    Image(Key(user, transaction, uuid, Extension(upload.contentType)), upload.contentType,
          FileName(upload.fileName, upload.contentType), |upload.data|)
  }

  function CommitTo(w: World, working: Tables, e: Effect): World {
    if Took(e) then w.(committed := working) else w
  }

  function PutTo(w: World, key: Key, data: seq<byte>, e: Effect): World {
    if Took(e) then w.(objects := w.objects[key := data]) else w
  }

  function DeleteFrom(w: World, key: Key, e: Effect): World {
    if Took(e) then w.(objects := w.objects - {key}) else w
  }

  function Refusal(w: World, limits: Limits, owned: bool, transaction: nat, upload: Upload): Option<Failure> {
    if !owned then Some(NotFound)
    else if !IsUpload(upload.contentType, upload.data, limits.maxBytes) then Some(InvalidUpload)
    else if |ReceiptIn(w.committed, transaction).images| >= limits.maxImages then Some(Conflict)
    else None
  }

  function AddImage(w: World, user: nat, transaction: nat, upload: Upload, put: Effect, commit: Effect, cleanup: Effect)
    : (World, Result<Receipt, Failure>)
  {
    var image := NewImage(user, transaction, w.uuids, upload);
    var stored := PutTo(w.(uuids := w.uuids + 1), image.key, upload.data, put);
    var working := WithImage(w.committed, transaction, image);
    var written := CommitTo(stored, working, commit);
    match put.report
    case Raises => (stored, Err(StorageFailed))
    case Crashes => (stored, Err(Crashed))
    case Fine =>
      match commit.report
      case Fine => (written, Ok(working[transaction]))
      case Crashes => (written, Err(Crashed))
      case Raises => (DeleteFrom(written, image.key, cleanup), Err(if cleanup.report == Crashes then Crashed else CommitFailed))
  }

  function ImagesWithout(images: seq<Image>, uuid: nat): seq<Image> {
    if images == [] then []
    else
      var last := images[|images| - 1];
      ImagesWithout(images[..|images| - 1], uuid) + if last.key.uuid == uuid then [] else [last]
  }

  function FindImage(images: seq<Image>, uuid: nat): Option<Image> {
    if images == [] then None
    else if images[0].key.uuid == uuid then Some(images[0]) else FindImage(images[1..], uuid)
  }

  function DeleteImage(w: World, transaction: nat, image: Image, commit: Effect, cleanup: Effect)
    : (World, Result<(), Failure>)
  {
    var receipt := ReceiptIn(w.committed, transaction);
    var working := w.committed[transaction := receipt.(images := ImagesWithout(receipt.images, image.key.uuid))];
    var written := CommitTo(w, working, commit);
    match commit.report
    case Raises => (written, Err(CommitFailed))
    case Crashes => (written, Err(Crashed))
    case Fine => (DeleteFrom(written, image.key, cleanup), if cleanup.report == Crashes then Err(Crashed) else Ok(()))
  }

  /** The objects left after deleting those of the images in turn, until a crash; whether there was one. */
  function CleanUp(w: World, images: seq<Image>, effects: seq<Effect>): (World, bool)
    decreases |images|
  {
    if images == [] then (w, false)
    else
      var cleaned := DeleteFrom(w, images[0].key, First(effects));
      if First(effects).report == Crashes then (cleaned, true) else CleanUp(cleaned, images[1..], Rest(effects))
  }

  function DeleteReceipt(w: World, transaction: nat, commit: Effect, cleanups: seq<Effect>): (World, Result<(), Failure>) {
    var images, written := ReceiptIn(w.committed, transaction).images, CommitTo(w, w.committed - {transaction}, commit);
    match commit.report
    case Raises => (written, Err(CommitFailed))
    case Crashes => (written, Err(Crashed))
    case Fine =>
      var (cleaned, crashed) := CleanUp(written, images, cleanups);
      (cleaned, if crashed then Err(Crashed) else Ok(()))
  }

  function UpsertDetails(w: World, transaction: nat, details: string, commit: Effect): (World, Result<Receipt, Failure>) {
    var working := w.committed[transaction := ReceiptIn(w.committed, transaction).(details := details)];
    (CommitTo(w, working, commit),
     match commit.report
     case Fine => Ok(working[transaction])
     case Raises => Err(CommitFailed)
     case Crashes => Err(Crashed))
  }

  // ----- the service -----

  class ReceiptService {
    const owners: map<nat, nat>  // transaction -> user
    const limits: Limits
    var committed: Tables
    var session: Tables
    var objects: Objects
    var uuids: nat
    var puts: seq<Effect>
    var commits: seq<Effect>
    var deletes: seq<Effect>

    constructor (owners: map<nat, nat>, limits: Limits, puts: seq<Effect>, commits: seq<Effect>, deletes: seq<Effect>)
      ensures State() == World(map[], map[], 0) && session == committed
      ensures this.owners == owners && this.limits == limits
      ensures this.puts == puts && this.commits == commits && this.deletes == deletes
    {
      this.owners, this.limits, this.puts, this.commits, this.deletes := owners, limits, puts, commits, deletes;
      committed, session, objects, uuids := map[], map[], map[], 0;
    }

    function State(): World
      reads this
    {
      World(committed, objects, uuids)
    }

    predicate Owned(user: nat, transaction: nat)
      reads this
    {
      transaction in owners && owners[transaction] == user
    }

    method Put(key: Key, data: seq<byte>) returns (report: Report)
      modifies this`objects, this`puts
      ensures State() == PutTo(old(State()), key, data, First(old(puts)))
      ensures report == First(old(puts)).report && puts == Rest(old(puts))
    {
      var e := First(puts);
      if Took(e) {
        objects := objects[key := data];
      }
      puts, report := Rest(puts), e.report;
    }

    method Delete(key: Key) returns (report: Report)
      modifies this`objects, this`deletes
      ensures State() == DeleteFrom(old(State()), key, First(old(deletes)))
      ensures report == First(old(deletes)).report && deletes == Rest(old(deletes))
    {
      var e := First(deletes);
      if Took(e) {
        objects := objects - {key};
      }
      deletes, report := Rest(deletes), e.report;
    }

    method Commit() returns (report: Report)
      modifies this`committed, this`commits
      ensures State() == CommitTo(old(State()), session, First(old(commits)))
      ensures report == First(old(commits)).report && commits == Rest(old(commits))
    {
      var e := First(commits);
      if Took(e) {
        committed := session;
      }
      commits, report := Rest(commits), e.report;
    }

    /** The request is over: whatever was not committed is gone. */
    method Rollback()
      modifies this`session
      ensures session == committed
    {
      session := committed;
    }

    method Add(user: nat, transaction: nat, upload: Upload) returns (r: Result<Receipt, Failure>)
      requires session == committed
      modifies this
      ensures session == committed
      ensures var refusal := Refusal(old(State()), limits, Owned(user, transaction), transaction, upload);
              if refusal.Some? then State() == old(State()) && r == Err(refusal.value)
              else (State(), r) == AddImage(old(State()), user, transaction, upload,
                                            First(old(puts)), First(old(commits)), First(old(deletes)))
    {
      if !Owned(user, transaction) {
        return Err(NotFound);
      }
      if !IsUpload(upload.contentType, upload.data, limits.maxBytes) {
        return Err(InvalidUpload);
      }
      if transaction !in session {
        session := session[transaction := Receipt("", [])];
      }
      var receipt := session[transaction];
      if |receipt.images| >= limits.maxImages {
        Rollback();
        return Err(Conflict);
      }
      var image := NewImage(user, transaction, uuids, upload);
      uuids := uuids + 1;
      var stored := Put(image.key, upload.data);
      if stored != Fine {
        Rollback();
        return Err(if stored == Raises then StorageFailed else Crashed);
      }
      session := session[transaction := receipt.(images := receipt.images + [image])];
      assert session == WithImage(old(committed), transaction, image);
      var written := Commit();
      if written == Fine {
        return Ok(session[transaction]);
      }
      Rollback();
      if written == Crashes {
        return Err(Crashed);
      }
      var cleaned := Delete(image.key);  // don't strand the object
      r := Err(if cleaned == Crashes then Crashed else CommitFailed);
    }

    method Remove(user: nat, transaction: nat, uuid: nat) returns (r: Result<(), Failure>)
      requires session == committed
      modifies this
      ensures session == committed
      ensures var image := FindImage(ReceiptIn(old(committed), transaction).images, uuid);
              if !Owned(user, transaction) || image.None? then State() == old(State()) && r == Err(NotFound)
              else (State(), r) == DeleteImage(old(State()), transaction, image.value,
                                               First(old(commits)), First(old(deletes)))
    {
      var image := FindImage(ReceiptIn(session, transaction).images, uuid);
      if !Owned(user, transaction) || image.None? {
        return Err(NotFound);
      }
      FindImageIs(ReceiptIn(session, transaction).images, uuid);
      session := session[transaction := ReceiptIn(session, transaction).(
                         images := ImagesWithout(ReceiptIn(session, transaction).images, uuid))];
      var written := Commit();
      if written != Fine {
        Rollback();
        return Err(if written == Raises then CommitFailed else Crashed);
      }
      var cleaned := Delete(image.value.key);
      r := if cleaned == Crashes then Err(Crashed) else Ok(());
    }

    method RemoveReceipt(user: nat, transaction: nat) returns (r: Result<(), Failure>)
      requires session == committed
      modifies this
      ensures session == committed
      ensures if !Owned(user, transaction) || transaction !in old(committed)
              then State() == old(State()) && r == Err(NotFound)
              else (State(), r) == DeleteReceipt(old(State()), transaction, First(old(commits)), old(deletes))
    {
      if !Owned(user, transaction) || transaction !in session {
        return Err(NotFound);
      }
      var images := session[transaction].images;
      session := session - {transaction};
      var written := Commit();
      if written != Fine {
        Rollback();
        return Err(if written == Raises then CommitFailed else Crashed);
      }
      ghost var w, effects := State(), deletes;
      assert images[0..] == images;
      for i := 0 to |images|
        invariant session == committed
        invariant CleanUp(w, images, effects) == CleanUp(State(), images[i..], deletes)
      {
        assert images[i..][1..] == images[i + 1..];
        var cleaned := Delete(images[i].key);
        if cleaned == Crashes {
          return Err(Crashed);
        }
      }
      r := Ok(());
    }

    method SetDetails(user: nat, transaction: nat, details: string) returns (r: Result<Receipt, Failure>)
      requires session == committed
      modifies this
      ensures session == committed
      ensures if !Owned(user, transaction) then State() == old(State()) && r == Err(NotFound)
              else (State(), r) == UpsertDetails(old(State()), transaction, details, First(old(commits)))
      ensures objects == old(objects) && uuids == old(uuids)
      ensures committed == old(committed)
              || (Owned(user, transaction)
                  && committed == old(committed)[transaction := Receipt(details, ImagesBefore(old(committed), transaction))])
      ensures r.Ok? ==> transaction in committed && r.value == committed[transaction]
                        && r.value == Receipt(details, ImagesBefore(old(committed), transaction))
    {
      if !Owned(user, transaction) {
        return Err(NotFound);
      }
      session := session[transaction := ReceiptIn(session, transaction).(details := details)];
      var written := Commit();
      if written != Fine {
        Rollback();
        return Err(if written == Raises then CommitFailed else Crashed);
      }
      r := Ok(session[transaction]);
    }

    /** A row without its bytes would surface here as a second NotFound: in a safe state there is none. */
    method Get(user: nat, transaction: nat, uuid: nat) returns (r: Result<(seq<byte>, Image), Failure>)
      requires NoDangling(committed, objects)
      ensures var image := FindImage(ReceiptIn(committed, transaction).images, uuid);
              if !Owned(user, transaction) || image.None? then r == Err(NotFound)
              else r.Ok? && r.value.1 == image.value && |r.value.0| == image.value.size
                   && image.value.key in objects && r.value.0 == objects[image.value.key]
    {
      var image := FindImage(ReceiptIn(committed, transaction).images, uuid);
      if !Owned(user, transaction) || image.None? {
        return Err(NotFound);
      }
      FindImageIs(ReceiptIn(committed, transaction).images, uuid);
      if image.value.key !in objects {
        return Err(NotFound);
      }
      r := Ok((objects[image.value.key], image.value));
    }
  }

  lemma {:induction false} FindImageIs(images: seq<Image>, uuid: nat)
    ensures FindImage(images, uuid).Some? ==>
            FindImage(images, uuid).value in images && FindImage(images, uuid).value.key.uuid == uuid
    ensures FindImage(images, uuid).None? ==> forall image :: image in images ==> image.key.uuid != uuid
  {
    if images != [] {
      FindImageIs(images[1..], uuid);
      assert images == [images[0]] + images[1..];
    }
  }

  // ----- what each request does -----

  function ImagesBefore(tables: Tables, transaction: nat): seq<Image> {
    if transaction in tables then tables[transaction].images else []
  }

  function DetailsBefore(tables: Tables, transaction: nat): string {
    if transaction in tables then tables[transaction].details else ""
  }

  ghost predicate SameObject(a: Objects, b: Objects, key: Key) {
    (key in a <==> key in b) && (key in a ==> a[key] == b[key])
  }

  /** What the source accepts: one of four types, not empty, not too long, beginning as its type does. */
  lemma UploadsAre(data: seq<byte>, maxBytes: nat)
    ensures IsUpload(Jpeg, data, maxBytes) <==> |data| <= maxBytes && [0xff, 0xd8, 0xff] <= data
    ensures IsUpload(Png, data, maxBytes)
            <==> |data| <= maxBytes && [0x89, 'P' as int, 'N' as int, 'G' as int, 13, 10, 0x1a, 10] <= data
    ensures IsUpload(Pdf, data, maxBytes)
            <==> |data| <= maxBytes && ['%' as int, 'P' as int, 'D' as int, 'F' as int, '-' as int] <= data
    ensures IsUpload(Webp, data, maxBytes)
            <==> 12 <= |data| <= maxBytes && ['R' as int, 'I' as int, 'F' as int, 'F' as int] <= data
                 && ['W' as int, 'E' as int, 'B' as int, 'P' as int] <= data[8..]
    ensures !IsUpload(Unsupported, data, maxBytes)
  {
    if |data| >= 12 {
      assert data[8..][..4] == data[8..12];
    }
  }

  /** An attachment's name is the one it was uploaded with, cut to its column, or one made up from its type. */
  lemma NamesAreKept(name: string, contentType: ContentType)
    ensures name != "" && |name| <= 255 ==> FileName(name, contentType) == name
    ensures |name| > 255 ==> FileName(name, contentType) < name && |FileName(name, contentType)| == 255
    ensures FileName("", Jpeg) == "receipt.jpg" && FileName("", Png) == "receipt.png"
    ensures FileName("", Webp) == "receipt.webp" && FileName("", Pdf) == "receipt.pdf"
  {
  }

  /** Refused are: somebody else's transaction, what is no upload, and an attachment too many; nothing else. */
  lemma RefusedIff(w: World, limits: Limits, owned: bool, transaction: nat, upload: Upload)
    ensures var refusal := Refusal(w, limits, owned, transaction, upload);
            && (refusal == Some(NotFound) <==> !owned)
            && (refusal == Some(InvalidUpload) <==> owned && !IsUpload(upload.contentType, upload.data, limits.maxBytes))
            && (refusal.None? <==>
                owned && IsUpload(upload.contentType, upload.data, limits.maxBytes)
                && |ImagesBefore(w.committed, transaction)| < limits.maxImages)
  {
    hide IsUpload;
  }

  /** An attachment is added behind those that are there, with its type, name and size, under a key nobody has had; its
      object holds its bytes; everything else is as it was; and without a commit that took effect all rows are. */
  lemma AddDoes(w: World, user: nat, transaction: nat, upload: Upload, put: Effect, commit: Effect, cleanup: Effect, key: Key)
    ensures var (after, r) := AddImage(w, user, transaction, upload, put, commit, cleanup);
            var images := ImagesBefore(w.committed, transaction);
            && after.uuids == w.uuids + 1
            && (put.report != Fine || !Took(commit) ==> after.committed == w.committed)
            && (put.report == Fine && Took(commit) ==>
                  && transaction in after.committed && after.committed - {transaction} == w.committed - {transaction}
                  && var receipt := after.committed[transaction];
                     && receipt.details == DetailsBefore(w.committed, transaction)
                     && |receipt.images| == |images| + 1 && receipt.images[..|images|] == images
                     && var image := receipt.images[|images|];
                        && image.contentType == upload.contentType && image.size == |upload.data|
                        && image.fileName == FileName(upload.fileName, upload.contentType)
                        && image.key.user == user && image.key.transaction == transaction && image.key.uuid == w.uuids
                        && (commit.report == Fine ==>
                              image.key in after.objects && after.objects[image.key] == upload.data))
            && (key.uuid != w.uuids ==> SameObject(after.objects, w.objects, key))
  {
    hide FileName, Extension;
    var receipt, image := ReceiptIn(w.committed, transaction), NewImage(user, transaction, w.uuids, upload);
    var working := WithImage(w.committed, transaction, image);
    assert working[transaction] == receipt.(images := receipt.images + [image]);
    assert working - {transaction} == w.committed - {transaction};
    hide WithImage;
  }

  /** What the caller learns of it. */
  lemma AddReports(w: World, user: nat, transaction: nat, upload: Upload, put: Effect, commit: Effect, cleanup: Effect)
    ensures var (after, r) := AddImage(w, user, transaction, upload, put, commit, cleanup);
            && (r.Ok? <==> put.report == Fine && commit.report == Fine)
            && (put.report == Raises ==> r == Err(StorageFailed))
            && (put.report == Fine && commit.report == Raises && cleanup.report != Crashes ==> r == Err(CommitFailed))
            && (put.report == Crashes || (put.report == Fine && commit.report == Crashes) ==> r == Err(Crashed))
            && (r.Ok? ==> transaction in after.committed && r.value == after.committed[transaction])
  {
  }

  lemma {:induction false} WithoutConcat(a: seq<Image>, b: seq<Image>, uuid: nat)
    ensures ImagesWithout(a + b, uuid) == ImagesWithout(a, uuid) + ImagesWithout(b, uuid)
  {
    if b == [] {
      assert a + b == a;
    } else {
      assert (a + b)[..|a + b| - 1] == a + b[..|b| - 1];
      WithoutConcat(a, b[..|b| - 1], uuid);
    }
  }

  lemma {:induction false} WithoutNone(images: seq<Image>, uuid: nat)
    requires forall image :: image in images ==> image.key.uuid != uuid
    ensures ImagesWithout(images, uuid) == images
  {
    if images != [] {
      var init, last := images[..|images| - 1], images[|images| - 1];
      assert images == init + [last] && last in images;
      WithoutNone(init, uuid);
    }
  }

  lemma WithoutOne(image: Image)
    ensures ImagesWithout([image], image.key.uuid) == []
  {
    assert [image][..0] == [];
  }

  /** Removing an attachment takes its row out of its receipt, the others staying in order, and its object away after the
      commit; everything else is as it was. */
  lemma RemoveDoes(w: World, transaction: nat, a: seq<Image>, image: Image, b: seq<Image>, commit: Effect, cleanup: Effect,
                   key: Key)
    requires ImagesBefore(w.committed, transaction) == a + [image] + b
    requires forall other :: other in a + b ==> other.key.uuid != image.key.uuid
    ensures var (after, r) := DeleteImage(w, transaction, image, commit, cleanup);
            && after.uuids == w.uuids
            && (!Took(commit) ==> after.committed == w.committed)
            && (Took(commit) ==> after.committed
                                 == w.committed[transaction := Receipt(DetailsBefore(w.committed, transaction), a + b)])
            && (r.Ok? <==> commit.report == Fine && cleanup.report != Crashes)
            && (commit.report == Raises ==> r == Err(CommitFailed)) && (commit.report == Crashes ==> r == Err(Crashed))
            && (commit.report == Fine && Took(cleanup) ==> image.key !in after.objects)
            && (key != image.key || commit.report != Fine ==> SameObject(after.objects, w.objects, key))
  {
    hide ImagesWithout;
    forall other | other in a
      ensures other.key.uuid != image.key.uuid
    {
      assert other in a + b;
    }
    forall other | other in b
      ensures other.key.uuid != image.key.uuid
    {
      assert other in a + b;
    }
    WithoutNone(a, image.key.uuid);
    WithoutNone(b, image.key.uuid);
    WithoutOne(image);
    WithoutConcat(a, [image], image.key.uuid);
    WithoutConcat(a + [image], b, image.key.uuid);
    assert a + [] + b == a + b;
  }

  /** What becomes of the k-th deletion; those without an effect of their own succeed. */
  function EffectAt(effects: seq<Effect>, k: nat): Effect {
    if k < |effects| then effects[k] else Effect(true, Fine)
  }

  /** The deletions before the first crash are tried, each for itself. */
  lemma {:induction false} CleanUpReaches(w: World, images: seq<Image>, effects: seq<Effect>, k: nat)
    requires k < |images| && forall j :: 0 <= j < k ==> EffectAt(effects, j).report != Crashes
    ensures Took(EffectAt(effects, k)) ==> images[k].key !in CleanUp(w, images, effects).0.objects
    decreases k
  {
    hide Took;
    assert EffectAt(effects, 0) == First(effects);
    var cleaned := DeleteFrom(w, images[0].key, First(effects));
    if k == 0 {
      if Took(EffectAt(effects, 0)) {
        CleanUpShrinks(cleaned, images[1..], Rest(effects), images[0].key);
      }
    } else {
      assert forall j :: 0 <= j < k ==> EffectAt(Rest(effects), j) == EffectAt(effects, j + 1);
      CleanUpReaches(cleaned, images[1..], Rest(effects), k - 1);
    }
  }

  lemma {:induction false} CleanUpShrinks(w: World, images: seq<Image>, effects: seq<Effect>, key: Key)
    requires key !in w.objects
    ensures key !in CleanUp(w, images, effects).0.objects
    decreases |images|
  {
    if images != [] {
      CleanUpShrinks(DeleteFrom(w, images[0].key, First(effects)), images[1..], Rest(effects), key);
    }
  }

  lemma {:induction false} CleanUpCrashesIff(w: World, images: seq<Image>, effects: seq<Effect>)
    ensures CleanUp(w, images, effects).1 <==> exists k :: 0 <= k < |images| && EffectAt(effects, k).report == Crashes
    decreases |images|
  {
    hide Took;
    if images != [] {
      assert EffectAt(effects, 0) == First(effects);
      assert forall j: nat :: EffectAt(effects, j + 1) == EffectAt(Rest(effects), j);
      CleanUpCrashesIff(DeleteFrom(w, images[0].key, First(effects)), images[1..], Rest(effects));
      if k :| 0 < k < |images| && EffectAt(effects, k).report == Crashes {
        assert EffectAt(Rest(effects), k - 1) == EffectAt(effects, k);
      }
    }
  }

  /** Removing a receipt takes exactly it away, and after the commit the objects of its attachments, each deletion tried
      whatever became of those before it, short of a crash; no other object is touched. */
  lemma RemoveReceiptDoes(w: World, transaction: nat, commit: Effect, cleanups: seq<Effect>, key: Key)
    requires transaction in w.committed
    ensures var images, (after, r) := w.committed[transaction].images, DeleteReceipt(w, transaction, commit, cleanups);
            && after.uuids == w.uuids
            && after.committed == (if Took(commit) then w.committed - {transaction} else w.committed)
            && ((forall image :: image in images ==> image.key != key) || commit.report != Fine ==>
                  SameObject(after.objects, w.objects, key))
            && (r.Ok? <==> commit.report == Fine && forall k :: 0 <= k < |images| ==> EffectAt(cleanups, k).report != Crashes)
            && (r.Err? ==> r.error == if commit.report == Raises then CommitFailed else Crashed)
    ensures var images := w.committed[transaction].images;
            forall k :: 0 <= k < |images| && commit.report == Fine && Took(EffectAt(cleanups, k))
                        && (forall j :: 0 <= j < k ==> EffectAt(cleanups, j).report != Crashes) ==>
              images[k].key !in DeleteReceipt(w, transaction, commit, cleanups).0.objects
  {
    hide CleanUp, EffectAt;
    var images := w.committed[transaction].images;
    var written := CommitTo(w, w.committed - {transaction}, commit);
    CleanUpKeepsRows(written, images, cleanups);
    CleanUpCrashesIff(written, images, cleanups);
    forall k | 0 <= k < |images| && commit.report == Fine && Took(EffectAt(cleanups, k))
               && (forall j :: 0 <= j < k ==> EffectAt(cleanups, j).report != Crashes)
      ensures images[k].key !in DeleteReceipt(w, transaction, commit, cleanups).0.objects
    {
      CleanUpReaches(written, images, cleanups, k);
    }
    if forall image :: image in images ==> image.key != key {
      CleanUpLeaves(written, images, cleanups, key);
    }
  }

  /** Setting the details changes them and nothing else, in this receipt or any other. */
  lemma SetDetailsDoes(w: World, transaction: nat, details: string, commit: Effect)
    ensures var (after, r) := UpsertDetails(w, transaction, details, commit);
            && after.objects == w.objects && after.uuids == w.uuids
            && (!Took(commit) ==> after.committed == w.committed)
            && (Took(commit) ==>
                  after.committed == w.committed[transaction := Receipt(details, ImagesBefore(w.committed, transaction))])
            && (r.Ok? <==> commit.report == Fine)
            && (r.Ok? ==> r.value == Receipt(details, ImagesBefore(w.committed, transaction)))
  {
  }

  // ----- the invariant -----

  /** The row's object is there, of the recorded size. */
  ghost predicate Backed(objects: Objects, image: Image) {
    image.key in objects && |objects[image.key]| == image.size
  }

  ghost predicate NoDangling(tables: Tables, objects: Objects) {
    forall t :: t in tables ==> forall i :: 0 <= i < |tables[t].images| ==> Backed(objects, tables[t].images[i])
  }

  /** Keys name their transaction, and their uuids are drawn upwards. */
  ghost predicate KeysOk(images: seq<Image>, transaction: nat, uuids: nat) {
    && (forall i :: 0 <= i < |images| ==> images[i].key.transaction == transaction && images[i].key.uuid < uuids)
    && (forall i, j :: 0 <= i < j < |images| ==> images[i].key.uuid < images[j].key.uuid)
  }

  ghost predicate RowsOk(tables: Tables, uuids: nat, limits: Limits) {
    forall t :: t in tables ==> KeysOk(tables[t].images, t, uuids) && |tables[t].images| <= limits.maxImages
  }

  ghost predicate Safe(w: World, limits: Limits) {
    NoDangling(w.committed, w.objects) && RowsOk(w.committed, w.uuids, limits)
  }

  // ----- adding -----

  lemma RowsWithImage(tables: Tables, uuids: nat, limits: Limits, transaction: nat, image: Image)
    requires RowsOk(tables, uuids, limits) && |ReceiptIn(tables, transaction).images| < limits.maxImages
    requires image.key.transaction == transaction && image.key.uuid == uuids
    ensures RowsOk(WithImage(tables, transaction, image), uuids + 1, limits)
    ensures RowsOk(tables, uuids + 1, limits)
  {
    var after := WithImage(tables, transaction, image);
    forall t | t in after
      ensures KeysOk(after[t].images, t, uuids + 1) && |after[t].images| <= limits.maxImages
    {
      if t in tables {
        assert KeysOk(tables[t].images, t, uuids);
      }
    }
  }

  /** The object a new key names is nobody else's. */
  lemma OthersAreBacked(tables: Tables, uuids: nat, limits: Limits, before: Objects, after: Objects, key: Key)
    requires RowsOk(tables, uuids, limits) && NoDangling(tables, before)
    requires key.uuid == uuids && after - {key} == before - {key}
    ensures NoDangling(tables, after)
  {
    forall t | t in tables
      ensures forall i :: 0 <= i < |tables[t].images| ==> Backed(after, tables[t].images[i])
    {
      assert KeysOk(tables[t].images, t, uuids);
      forall i | 0 <= i < |tables[t].images|
        ensures Backed(after, tables[t].images[i])
      {
        assert Backed(before, tables[t].images[i]);
        assert tables[t].images[i].key in before - {key};
      }
    }
  }

  lemma BackedWithImage(tables: Tables, objects: Objects, transaction: nat, image: Image)
    requires NoDangling(tables, objects)
    ensures NoDangling(WithImage(tables, transaction, image), objects) <==> Backed(objects, image)
  {
    var after := WithImage(tables, transaction, image);
    var images := after[transaction].images;
    assert images[|images| - 1] == image;
    forall t | t in after && (t != transaction || Backed(objects, image))
      ensures forall i :: 0 <= i < |after[t].images| ==> Backed(objects, after[t].images[i])
    {
    }
  }

  /** Adding an attachment is safe in every case but one: the commit raises although it applied, and the cleanup then
      deletes the bytes of a row that is there. */
  lemma AddIsSafeIff(w: World, limits: Limits, user: nat, transaction: nat, upload: Upload,
                     put: Effect, commit: Effect, cleanup: Effect)
    requires Safe(w, limits) && Refusal(w, limits, true, transaction, upload).None?
    ensures Safe(AddImage(w, user, transaction, upload, put, commit, cleanup).0, limits)
            <==> !(put.report == Fine && commit.report == Raises && commit.happened && Took(cleanup))
  {
    hide IsUpload, RowsOk, NoDangling, WithImage;
    var image := NewImage(user, transaction, w.uuids, upload);
    var after := AddImage(w, user, transaction, upload, put, commit, cleanup).0;
    var written := w.objects[image.key := upload.data];
    RowsWithImage(w.committed, w.uuids, limits, transaction, image);
    assert after.objects - {image.key} == w.objects - {image.key};
    OthersAreBacked(w.committed, w.uuids, limits, w.objects, after.objects, image.key);
    BackedWithImage(w.committed, after.objects, transaction, image);
  }

  // ----- removing -----

  lemma {:induction false} WithoutMembers(images: seq<Image>, uuid: nat)
    ensures |ImagesWithout(images, uuid)| <= |images|
    ensures forall image :: image in ImagesWithout(images, uuid) <==> image in images && image.key.uuid != uuid
  {
    if images != [] {
      WithoutMembers(images[..|images| - 1], uuid);
      assert images == images[..|images| - 1] + [images[|images| - 1]];
    }
  }

  lemma KeysOfInit(images: seq<Image>, transaction: nat, uuids: nat)
    requires KeysOk(images, transaction, uuids) && images != []
    ensures KeysOk(images[..|images| - 1], transaction, uuids)
    ensures forall image :: image in images[..|images| - 1] ==> image.key.uuid < images[|images| - 1].key.uuid
  {
  }

  lemma KeysPush(images: seq<Image>, last: Image, transaction: nat, uuids: nat)
    requires KeysOk(images, transaction, uuids) && last.key.transaction == transaction && last.key.uuid < uuids
    requires forall image :: image in images ==> image.key.uuid < last.key.uuid
    ensures KeysOk(images + [last], transaction, uuids)
  {
    assert forall i :: 0 <= i < |images| ==> images[i] in images;
  }

  lemma {:induction false} WithoutIs(images: seq<Image>, transaction: nat, uuids: nat, uuid: nat)
    requires KeysOk(images, transaction, uuids)
    ensures KeysOk(ImagesWithout(images, uuid), transaction, uuids)
  {
    if images != [] {
      var init, last := images[..|images| - 1], images[|images| - 1];
      KeysOfInit(images, transaction, uuids);
      WithoutIs(init, transaction, uuids, uuid);
      WithoutMembers(init, uuid);
      if last.key.uuid == uuid {
        assert ImagesWithout(init, uuid) + [] == ImagesWithout(init, uuid);
      } else {
        KeysPush(ImagesWithout(init, uuid), last, transaction, uuids);
      }
    }
  }

  /** Removing an attachment is safe whatever fails. */
  lemma RemoveIsSafe(w: World, limits: Limits, transaction: nat, image: Image, commit: Effect, cleanup: Effect)
    requires Safe(w, limits) && image in ReceiptIn(w.committed, transaction).images
    ensures Safe(DeleteImage(w, transaction, image, commit, cleanup).0, limits)
  {
    hide ImagesWithout;
    var receipt := ReceiptIn(w.committed, transaction);
    var kept := ImagesWithout(receipt.images, image.key.uuid);
    var working := w.committed[transaction := receipt.(images := kept)];
    assert KeysOk(receipt.images, transaction, w.uuids);
    WithoutIs(receipt.images, transaction, w.uuids, image.key.uuid);
    WithoutMembers(receipt.images, image.key.uuid);
    var after := DeleteImage(w, transaction, image, commit, cleanup).0;
    forall t | t in after.committed
      ensures forall i :: 0 <= i < |after.committed[t].images| ==> Backed(after.objects, after.committed[t].images[i])
    {
      assert KeysOk(w.committed[t].images, t, w.uuids);
      forall i | 0 <= i < |after.committed[t].images|
        ensures Backed(after.objects, after.committed[t].images[i])
      {
        var other := after.committed[t].images[i];
        assert other in w.committed[t].images;
        assert Backed(w.objects, other);
      }
    }
  }

  lemma {:induction false} CleanUpLeaves(w: World, images: seq<Image>, effects: seq<Effect>, key: Key)
    requires forall image :: image in images ==> image.key != key
    ensures var after := CleanUp(w, images, effects).0;
            && after.committed == w.committed && after.uuids == w.uuids
            && (key in after.objects <==> key in w.objects)
            && (key in w.objects ==> after.objects[key] == w.objects[key])
    decreases |images|
  {
    if images != [] {
      assert images[0] in images;
      CleanUpLeaves(DeleteFrom(w, images[0].key, First(effects)), images[1..], Rest(effects), key);
    }
  }

  /** Removing a whole receipt is safe whatever fails, even halfway through the cleanup. */
  lemma RemoveReceiptIsSafe(w: World, limits: Limits, transaction: nat, commit: Effect, cleanups: seq<Effect>)
    requires Safe(w, limits) && transaction in w.committed
    ensures Safe(DeleteReceipt(w, transaction, commit, cleanups).0, limits)
  {
    hide CleanUp;
    var after, images := DeleteReceipt(w, transaction, commit, cleanups).0, w.committed[transaction].images;
    var written := CommitTo(w, w.committed - {transaction}, commit);
    CleanUpKeepsRows(written, images, cleanups);
    assert KeysOk(images, transaction, w.uuids);
    forall t | t in after.committed
      ensures forall i :: 0 <= i < |after.committed[t].images| ==> Backed(after.objects, after.committed[t].images[i])
    {
      assert KeysOk(w.committed[t].images, t, w.uuids);
      forall i | 0 <= i < |after.committed[t].images|
        ensures Backed(after.objects, after.committed[t].images[i])
      {
        assert Backed(w.objects, w.committed[t].images[i]);
        if commit.report == Fine {
          CleanUpLeaves(written, images, cleanups, w.committed[t].images[i].key);
        }
      }
    }
  }

  lemma {:induction false} CleanUpKeepsRows(w: World, images: seq<Image>, effects: seq<Effect>)
    ensures CleanUp(w, images, effects).0.committed == w.committed && CleanUp(w, images, effects).0.uuids == w.uuids
    decreases |images|
  {
    if images != [] {
      CleanUpKeepsRows(DeleteFrom(w, images[0].key, First(effects)), images[1..], Rest(effects));
    }
  }

  lemma DetailsAreSafe(w: World, limits: Limits, transaction: nat, details: string, commit: Effect)
    requires Safe(w, limits)
    ensures Safe(UpsertDetails(w, transaction, details, commit).0, limits)
  {
  }

  // ----- every run -----

  datatype Operation =
    | Adds(user: nat, transaction: nat, upload: Upload, put: Effect, commit: Effect, cleanup: Effect)
    | Removes(transaction: nat, uuid: nat, commit: Effect, cleanup: Effect)
    | RemovesReceipt(transaction: nat, commit: Effect, cleanups: seq<Effect>)
    | SetsDetails(transaction: nat, details: string, commit: Effect)

  /** One request of an owner; anyone else's changes nothing. */
  function Perform(w: World, limits: Limits, op: Operation): World {
    match op
    case Adds(user, t, upload, put, commit, cleanup) =>
      if Refusal(w, limits, true, t, upload).Some? then w else AddImage(w, user, t, upload, put, commit, cleanup).0
    case Removes(t, uuid, commit, cleanup) =>
      var image := FindImage(ReceiptIn(w.committed, t).images, uuid);
      if image.None? then w else DeleteImage(w, t, image.value, commit, cleanup).0
    case RemovesReceipt(t, commit, cleanups) =>
      if t !in w.committed then w else DeleteReceipt(w, t, commit, cleanups).0
    case SetsDetails(t, details, commit) => UpsertDetails(w, t, details, commit).0
  }

  function PerformAll(limits: Limits, ops: seq<Operation>): World {
    if ops == [] then World(map[], map[], 0) else Perform(PerformAll(limits, ops[..|ops| - 1]), limits, ops[|ops| - 1])
  }

  /** The one assumption, and only where an attachment is added: a commit that raises did not apply. */
  predicate Honest(op: Operation) {
    op.Adds? && op.commit.report == Raises ==> !op.commit.happened
  }

  /** Over every run of requests with failures and crashes at any effect: no row without its object, of the recorded
      size, and no receipt over the cap. */
  lemma {:induction false} RunIsSafe(limits: Limits, ops: seq<Operation>)
    requires forall i :: 0 <= i < |ops| ==> Honest(ops[i])
    ensures Safe(PerformAll(limits, ops), limits)
  {
    hide Refusal, AddImage, DeleteImage, DeleteReceipt, UpsertDetails, NoDangling, RowsOk;
    if ops == [] {
      NothingIsSafe(limits);
    } else {
      var w, op := PerformAll(limits, ops[..|ops| - 1]), ops[|ops| - 1];
      RunIsSafe(limits, ops[..|ops| - 1]);
      assert Honest(op);
      match op {
        case Adds(user, t, upload, put, commit, cleanup) =>
          if Refusal(w, limits, true, t, upload).None? {
            AddIsSafeIff(w, limits, user, t, upload, put, commit, cleanup);
          }
        case Removes(t, uuid, commit, cleanup) =>
          FindImageIs(ReceiptIn(w.committed, t).images, uuid);
          var image := FindImage(ReceiptIn(w.committed, t).images, uuid);
          if image.Some? {
            RemoveIsSafe(w, limits, t, image.value, commit, cleanup);
          }
        case RemovesReceipt(t, commit, cleanups) =>
          if t in w.committed {
            RemoveReceiptIsSafe(w, limits, t, commit, cleanups);
          }
        case SetsDetails(t, details, commit) => DetailsAreSafe(w, limits, t, details, commit);
      }
    }
  }

  lemma NothingIsSafe(limits: Limits)
    ensures Safe(World(map[], map[], 0), limits)
  {
  }
}
