/** The storage-metadata repair migration for product files: magic-byte sniffing of
    a file's real type, the scan for files whose stored content type is missing or
    generic, and the repair loop that re-uploads each such file under its sniffed
    type and points the product at the new copy. */
module ProductStorageMetadata {
  import opened Common

  const PNG_TYPE := "image/png"
  const JPEG_TYPE := "image/jpeg"
  const PDF_TYPE := "application/pdf"
  const WEBP_TYPE := "image/webp"
  const OCTET_STREAM := "application/octet-stream"

  /** The first four bytes of the PNG signature (section 5.2 of ISO/IEC 15948). */
  const PNG_MAGIC: seq<Byte> := [0x89, 0x50, 0x4E, 0x47]
  /** SOI marker FF D8 followed by the first byte of the next marker (ITU-T T.81, Annex B). */
  const JPEG_MAGIC: seq<Byte> := [0xFF, 0xD8, 0xFF]
  /** The `%PDF` file header (section 7.5.2 of ISO 32000-1). */
  const PDF_MAGIC: seq<Byte> := [0x25, 0x50, 0x44, 0x46]
  /** `RIFF` chunk id and `WEBP` form type (RFC 9649); the 4-byte size between them is not read. */
  const RIFF_MAGIC: seq<Byte> := [0x52, 0x49, 0x46, 0x46]
  const WEBP_MAGIC: seq<Byte> := [0x57, 0x45, 0x42, 0x50]

  /** `bytes[i] === v`: an index past the end reads `undefined`, which equals no byte. */
  predicate ByteIs(bytes: seq<Byte>, i: nat, v: Byte) {
    i < |bytes| && bytes[i] == v
  }

  /** `detectMimeTypeFromBytes`: `None` stands for the function's `null`. */
  function DetectMimeType(bytes: seq<Byte>): (r: Option<string>)
    ensures r == Some(PNG_TYPE) <==> PNG_MAGIC <= bytes
    ensures r == Some(JPEG_TYPE) <==> JPEG_MAGIC <= bytes
    ensures r == Some(PDF_TYPE) <==> PDF_MAGIC <= bytes
    ensures r == Some(WEBP_TYPE) <==> RIFF_MAGIC <= bytes && |bytes| >= 12 && bytes[8..12] == WEBP_MAGIC
    ensures r.Some? ==> r.value in {PNG_TYPE, JPEG_TYPE, PDF_TYPE, WEBP_TYPE}
    ensures |bytes| < 3 ==> r == None
    ensures r == Some(WEBP_TYPE) ==> |bytes| >= 12
  {
    assert RIFF_MAGIC <= bytes && |bytes| >= 12 && bytes[8..12] == WEBP_MAGIC ==>
      bytes[8] == 0x57 && bytes[9] == 0x45 && bytes[10] == 0x42 && bytes[11] == 0x50;
    if ByteIs(bytes, 0, 0x89) && ByteIs(bytes, 1, 0x50) && ByteIs(bytes, 2, 0x4E) && ByteIs(bytes, 3, 0x47) then
      Some(PNG_TYPE)
    else if ByteIs(bytes, 0, 0xFF) && ByteIs(bytes, 1, 0xD8) && ByteIs(bytes, 2, 0xFF) then
      Some(JPEG_TYPE)
    else if ByteIs(bytes, 0, 0x25) && ByteIs(bytes, 1, 0x50) && ByteIs(bytes, 2, 0x44) && ByteIs(bytes, 3, 0x46) then
      Some(PDF_TYPE)
    else if ByteIs(bytes, 0, 0x52) && ByteIs(bytes, 1, 0x49) && ByteIs(bytes, 2, 0x46) && ByteIs(bytes, 3, 0x46)
         && ByteIs(bytes, 8, 0x57) && ByteIs(bytes, 9, 0x45) && ByteIs(bytes, 10, 0x42) && ByteIs(bytes, 11, 0x50) then
      Some(WEBP_TYPE)
    else
      None
  }

  /** Only the first four bytes of the eight-byte PNG signature are compared, so a
      truncated or corrupted PNG header is still reported as PNG. */
  lemma PngSignatureTail(tail: seq<Byte>)
    ensures DetectMimeType(PNG_MAGIC + tail) == Some(PNG_TYPE)
  {
    assert PNG_MAGIC <= PNG_MAGIC + tail;
  }

  type StorageId = nat
  type ProductId = nat

  /** A row of the `_storage` system table: the stored bytes and the recorded content
      type (`""` when none was recorded). */
  datatype StoredFile = StoredFile(bytes: seq<Byte>, contentType: string)

  datatype FileField = MainImage | Flyer | BridgeCard | Visualaid

  datatype Product = Product(
    id: ProductId,
    name: string,
    mainImage: Option<StorageId>,
    flyer: Option<StorageId>,
    bridgeCard: Option<StorageId>,
    visualaid: Option<StorageId>,
    images: seq<StorageId>)

  function FieldOf(p: Product, f: FileField): Option<StorageId> {
    match f
    case MainImage => p.mainImage
    case Flyer => p.flyer
    case BridgeCard => p.bridgeCard
    case Visualaid => p.visualaid
  }

  /** The metadata check of `findProblematicProducts`: the system row is missing, has no
      content type, or has the generic `application/octet-stream`. */
  predicate NeedsFix(files: map<StorageId, StoredFile>, id: StorageId) {
    id !in files || files[id].contentType == "" || files[id].contentType == OCTET_STREAM
  }

  predicate Flagged(p: Product, f: FileField, files: map<StorageId, StoredFile>) {
    FieldOf(p, f).Some? && NeedsFix(files, FieldOf(p, f).value)
  }

  /** The fields of one product that are flagged, in the order the source checks them. */
  function Issues(p: Product, files: map<StorageId, StoredFile>): (r: seq<FileField>)
    ensures forall f :: f in r <==> Flagged(p, f, files)
    ensures forall i, j :: 0 <= i < j < |r| ==> r[i] != r[j]
  {
    Flag(p, MainImage, files) + Flag(p, Flyer, files) + Flag(p, BridgeCard, files) + Flag(p, Visualaid, files)
  }

  /** One field's check: the field when it is flagged, nothing otherwise. */
  function Flag(p: Product, f: FileField, files: map<StorageId, StoredFile>): seq<FileField> {
    if Flagged(p, f, files) then [f] else []
  }

  datatype Problem = Problem(productId: ProductId, name: string, issues: seq<FileField>)

  function ProblemOf(p: Product, files: map<StorageId, StoredFile>): Problem {
    Problem(p.id, p.name, Issues(p, files))
  }

  /** The report of `findProblematicProducts`, in table order. */
  function Problematic(products: seq<Product>, files: map<StorageId, StoredFile>): (r: seq<Problem>)
    ensures |r| <= |products|
    ensures forall q :: q in r ==> q.issues != [] && exists p :: p in products && q == ProblemOf(p, files)
    ensures forall p :: p in products && Issues(p, files) != [] ==> ProblemOf(p, files) in r
  {
    if products == [] then []
    else
      var rest := Problematic(products[..|products| - 1], files);
      var last := products[|products| - 1];
      assert forall p :: p in products[..|products| - 1] ==> p in products;
      assert forall p :: p in products ==> p in products[..|products| - 1] || p == last;
      if Issues(last, files) != [] then rest + [ProblemOf(last, files)] else rest
  }

  datatype MigrationReport = MigrationReport(success: bool, count: nat, products: seq<Problem>)

  /** `runMigration`: the read-only report. */
  function RunMigration(products: seq<Product>, files: map<StorageId, StoredFile>): (r: MigrationReport)
    ensures r.success <==> r.count == 0
    ensures r.count == |r.products| <= |products|
    ensures r.success <==> forall p :: p in products ==> forall f :: !Flagged(p, f, files)
  {
    var problematic := Problematic(products, files);
    NothingProblematicIffClean(products, files);
    if problematic == [] then MigrationReport(true, 0, [])
    else MigrationReport(false, |problematic|, problematic)
  }

  /** The report is empty exactly when no field of any product is flagged. */
  lemma NothingProblematicIffClean(products: seq<Product>, files: map<StorageId, StoredFile>)
    ensures Problematic(products, files) == [] <==> forall p :: p in products ==> forall f :: !Flagged(p, f, files)
  {
    var problematic := Problematic(products, files);
    if problematic == [] {
      forall p, f | p in products
        ensures !Flagged(p, f, files)
      {
        assert ProblemOf(p, files) !in problematic;
        assert Issues(p, files) == [];
      }
    } else {
      var q := problematic[0];
      assert q in problematic;
      var p :| p in products && q == ProblemOf(p, files);
      assert Flagged(p, q.issues[0], files);
    }
  }

  /** The number of (product, field) pairs the repair loop visits. */
  function TotalIssues(ps: seq<Problem>): nat {
    if ps == [] then 0 else TotalIssues(ps[..|ps| - 1]) + |ps[|ps| - 1].issues|
  }

  /** `updateProductFile`'s patch: the field points at the new file, and only for the main
      image the gallery becomes exactly that file. */
  function PatchFile(p: Product, f: FileField, newId: StorageId): (r: Product)
    ensures FieldOf(r, f) == Some(newId)
    ensures forall g :: g != f ==> FieldOf(r, g) == FieldOf(p, g)
    ensures r.images == if f == MainImage then [newId] else p.images
    ensures r.id == p.id && r.name == p.name
  {
    match f
    case MainImage => p.(mainImage := Some(newId), images := [newId])
    case Flyer => p.(flyer := Some(newId))
    case BridgeCard => p.(bridgeCard := Some(newId))
    case Visualaid => p.(visualaid := Some(newId))
  }

  /** The first row holding product `id` (`ctx.db.get`). */
  function FindProduct(products: seq<Product>, id: ProductId): (r: Option<nat>)
    ensures r.Some? ==> r.value < |products| && products[r.value].id == id
    ensures r.Some? ==> forall k :: 0 <= k < r.value ==> products[k].id != id
    ensures r.None? ==> forall k :: 0 <= k < |products| ==> products[k].id != id
  {
    if products == [] then None
    else if products[0].id == id then Some(0)
    else match FindProduct(products[1..], id)
      case None => None
      case Some(k) => Some(k + 1)
  }

  datatype FixFailure = FixFailure(productName: string, field: FileField, error: string)

  /** What the HTTP fetch of a file's URL answers: the file's bytes, or a non-ok status. */
  datatype FetchReply = Fetched | FetchFailed(statusText: string)

  /** The `products` table and the file storage. */
  datatype Store = Store(products: seq<Product>, files: map<StorageId, StoredFile>)

  /** How one (product, field) attempt of `fixFiles` ends: the store after it, and the error
      recorded for it when it fails. */
  datatype StepResult = StepResult(store: Store, failure: Option<string>)

  /** One (product, field) attempt of `fixFiles`: look the product up, read the field's file,
      fetch it, sniff its type, upload a copy under that type (`uploaded` is the new id, `None`
      for a non-ok upload), point the field at the copy and delete the old file. */
  function FixStep(st: Store, productId: ProductId, field: FileField, fetch: FetchReply,
                   uploaded: Option<StorageId>): StepResult
  {
    var index := FindProduct(st.products, productId);
    if index.None? then StepResult(st, Some("Product not found"))
    else
      var storageId := FieldOf(st.products[index.value], field);
      if storageId.None? then StepResult(st, Some("Storage ID not found"))
      else if storageId.value !in st.files then StepResult(st, Some("Could not get file URL"))
      else if fetch.FetchFailed? then StepResult(st, Some("Failed to fetch file: " + fetch.statusText))
      else
        var bytes := st.files[storageId.value].bytes;
        var mime := DetectMimeType(bytes);
        if mime.None? then StepResult(st, Some("Could not detect file type"))
        else if uploaded.None? then StepResult(st, Some("Failed to upload corrected file"))
        else
          StepResult(Store(st.products[index.value := PatchFile(st.products[index.value], field, uploaded.value)],
                           st.files[uploaded.value := StoredFile(bytes, mime.value)] - {storageId.value}),
                     None)
  }

  /** A failed attempt changes nothing; a successful one needed a good fetch and upload, and
      leaves the first row of the product pointing at the new file, which holds the old bytes
      under their sniffed type (unless the new id is the old one, which the deletion then
      removes), with every other field of every row as it was. */
  lemma FixStepOutcome(st: Store, productId: ProductId, field: FileField, fetch: FetchReply,
                       uploaded: Option<StorageId>)
    ensures var r := FixStep(st, productId, field, fetch, uploaded);
      (r.failure.Some? ==> r.store == st)
      && (r.failure.None? ==>
        fetch.Fetched? && uploaded.Some? && FindProduct(st.products, productId).Some?
        && var i := FindProduct(st.products, productId).value;
           var oldId := FieldOf(st.products[i], field).value;
           oldId in st.files && DetectMimeType(st.files[oldId].bytes).Some?
           && r.store.products == st.products[i := PatchFile(st.products[i], field, uploaded.value)]
           && FieldOf(r.store.products[i], field) == uploaded
           && (uploaded.value != oldId ==>
                 uploaded.value in r.store.files && !NeedsFix(r.store.files, uploaded.value)
                 && r.store.files[uploaded.value] == StoredFile(st.files[oldId].bytes, DetectMimeType(st.files[oldId].bytes).value))
           && oldId !in r.store.files)
  {
  }

  /** An attempt keeps the rows, their ids and their names. */
  lemma FixStepKeepsRows(st: Store, productId: ProductId, field: FileField, fetch: FetchReply,
                         uploaded: Option<StorageId>)
    ensures var r := FixStep(st, productId, field, fetch, uploaded);
      |r.store.products| == |st.products|
      && forall i :: 0 <= i < |st.products| ==>
           r.store.products[i].id == st.products[i].id && r.store.products[i].name == st.products[i].name
  {
  }

  /** An attempt on another product, or on another field, leaves a field's file as it was,
      and the gallery too unless the attempt is on the main image. */
  lemma FixStepLeavesOthers(st: Store, productId: ProductId, field: FileField, fetch: FetchReply,
                            uploaded: Option<StorageId>, i: nat, f: FileField)
    requires i < |st.products|
    requires st.products[i].id != productId || field != f
    ensures var r := FixStep(st, productId, field, fetch, uploaded);
      i < |r.store.products| && FieldOf(r.store.products[i], f) == FieldOf(st.products[i], f)
      && (field != MainImage || st.products[i].id != productId ==> r.store.products[i].images == st.products[i].images)
  {
  }

  /** A (product, field) pair as the loop of `fixFiles` visits it. */
  datatype Attempt = Attempt(productId: ProductId, name: string, field: FileField)

  /** The pairs of one reported product, in the order of its issues. */
  function AttemptsOf(q: Problem): (r: seq<Attempt>)
    ensures |r| == |q.issues|
    ensures forall j :: 0 <= j < |r| ==> r[j] == Attempt(q.productId, q.name, q.issues[j])
  {
    seq(|q.issues|, j requires 0 <= j < |q.issues| => Attempt(q.productId, q.name, q.issues[j]))
  }

  /** All the pairs of the report, product by product. */
  function Attempts(ps: seq<Problem>): seq<Attempt>
    decreases |ps|
  {
    if ps == [] then [] else Attempts(ps[..|ps| - 1]) + AttemptsOf(ps[|ps| - 1])
  }

  /** There is one pair per (product, issue), and each pair is one of a reported product's
      issues. */
  lemma {:induction false} AttemptsOfReport(ps: seq<Problem>)
    ensures |Attempts(ps)| == TotalIssues(ps)
    ensures forall a :: a in Attempts(ps) ==>
      exists q :: q in ps && q.productId == a.productId && q.name == a.name && a.field in q.issues
    decreases |ps|
  {
    if ps != [] {
      var init := ps[..|ps| - 1];
      var last := ps[|ps| - 1];
      AttemptsOfReport(init);
      forall a | a in Attempts(ps)
        ensures exists q :: q in ps && q.productId == a.productId && q.name == a.name && a.field in q.issues
      {
        if a in Attempts(init) {
          var q :| q in init && q.productId == a.productId && q.name == a.name && a.field in q.issues;
          assert q in ps;
        } else {
          assert a in AttemptsOf(last);
          var j :| 0 <= j < |AttemptsOf(last)| && AttemptsOf(last)[j] == a;
          assert last.issues[j] in last.issues;
        }
      }
    }
  }

  /** What `fixFiles` has built up: the store, `fixedCount` and `failures`. */
  datatype RunState = RunState(store: Store, fixed: nat, failures: seq<FixFailure>)

  /** One attempt's effect on the run: a fix is counted, a failure is pushed with the pair's
      product name and field. */
  function Apply(rs: RunState, a: Attempt, fetch: FetchReply, uploaded: Option<StorageId>): RunState {
    var r := FixStep(rs.store, a.productId, a.field, fetch, uploaded);
    if r.failure.Some? then RunState(r.store, rs.fixed, rs.failures + [FixFailure(a.name, a.field, r.failure.value)])
    else RunState(r.store, rs.fixed + 1, rs.failures)
  }

  /** How `fixFiles` answers its j-th attempt, from the environment's j-th fetch and upload. */
  function Attempter(fetch: nat -> FetchReply, upload: nat -> Option<StorageId>): (RunState, Attempt, nat) -> RunState {
    (rs: RunState, a: Attempt, j: nat) => Apply(rs, a, fetch(j), upload(j))
  }

  lemma FixRunLast(rs: RunState, atts: seq<Attempt>, k: nat, fetch: nat -> FetchReply, upload: nat -> Option<StorageId>)
    requires atts != []
    ensures FixRun(rs, atts, k, Attempter(fetch, upload)) ==
      Apply(FixRun(rs, atts[..|atts| - 1], k, Attempter(fetch, upload)), atts[|atts| - 1],
            fetch(k + |atts| - 1), upload(k + |atts| - 1))
  {
  }

  /** The attempts `atts` in order, the j-th of them made by `step` as attempt `k + j`. */
  function FixRun(rs: RunState, atts: seq<Attempt>, k: nat, step: (RunState, Attempt, nat) -> RunState): RunState
    decreases |atts|
  {
    if atts == [] then rs
    else step(FixRun(rs, atts[..|atts| - 1], k, step), atts[|atts| - 1], k + |atts| - 1)
  }

  lemma FixRunSnoc(rs: RunState, atts: seq<Attempt>, j: nat, k: nat, step: (RunState, Attempt, nat) -> RunState)
    requires j < |atts|
    ensures FixRun(rs, atts[..j + 1], k, step) == step(FixRun(rs, atts[..j], k, step), atts[j], k + j)
  {
    assert atts[..j + 1][..j] == atts[..j];
  }

  /** Running `a` then `b` is running `a + b`, `b`'s attempts numbered after `a`'s. */
  lemma {:induction false} FixRunAppend(rs: RunState, a: seq<Attempt>, b: seq<Attempt>, k: nat,
                                        step: (RunState, Attempt, nat) -> RunState)
    ensures FixRun(rs, a + b, k, step) == FixRun(FixRun(rs, a, k, step), b, k + |a|, step)
    decreases |b|
  {
    if b == [] {
      assert a + b == a;
    } else {
      var ab := a + b;
      assert ab[..|ab| - 1] == a + b[..|b| - 1];
      assert ab[|ab| - 1] == b[|b| - 1];
      FixRunAppend(rs, a, b[..|b| - 1], k, step);
    }
  }

  /** Each attempt ends as exactly one fix or exactly one failure naming its product and
      field: the failures already recorded stay, and the count grows by the number of
      attempts. */
  lemma {:induction false} FixRunAccounts(rs: RunState, atts: seq<Attempt>, k: nat, fetch: nat -> FetchReply,
                                          upload: nat -> Option<StorageId>)
    ensures var r := FixRun(rs, atts, k, Attempter(fetch, upload));
      r.fixed + |r.failures| == rs.fixed + |rs.failures| + |atts|
      && rs.failures <= r.failures
      && forall i :: |rs.failures| <= i < |r.failures| ==>
           exists j :: 0 <= j < |atts| && r.failures[i].productName == atts[j].name && r.failures[i].field == atts[j].field
    decreases |atts|
  {
    if atts != [] {
      var init := atts[..|atts| - 1];
      var before := FixRun(rs, init, k, Attempter(fetch, upload));
      var r := FixRun(rs, atts, k, Attempter(fetch, upload));
      FixRunAccounts(rs, init, k, fetch, upload);
      FixRunLast(rs, atts, k, fetch, upload);
      forall i | |rs.failures| <= i < |r.failures|
        ensures exists j :: 0 <= j < |atts| && r.failures[i].productName == atts[j].name && r.failures[i].field == atts[j].field
      {
        if i < |before.failures| {
          assert r.failures[i] == before.failures[i];
          var j :| 0 <= j < |init| && before.failures[i].productName == init[j].name && before.failures[i].field == init[j].field;
          assert init[j] == atts[j];
        } else {
          assert r.failures[i].productName == atts[|atts| - 1].name && r.failures[i].field == atts[|atts| - 1].field;
        }
      }
    }
  }

  /** The run keeps the rows, their ids and their names. */
  lemma {:induction false} FixRunKeepsRows(rs: RunState, atts: seq<Attempt>, k: nat, fetch: nat -> FetchReply,
                                           upload: nat -> Option<StorageId>)
    ensures var r := FixRun(rs, atts, k, Attempter(fetch, upload));
      |r.store.products| == |rs.store.products|
      && forall i :: 0 <= i < |rs.store.products| ==>
           r.store.products[i].id == rs.store.products[i].id && r.store.products[i].name == rs.store.products[i].name
    decreases |atts|
  {
    if atts != [] {
      var before := FixRun(rs, atts[..|atts| - 1], k, Attempter(fetch, upload));
      var a := atts[|atts| - 1];
      FixRunKeepsRows(rs, atts[..|atts| - 1], k, fetch, upload);
      FixRunLast(rs, atts, k, fetch, upload);
      FixStepKeepsRows(before.store, a.productId, a.field, fetch(k + |atts| - 1), upload(k + |atts| - 1));
    }
  }

  /** A field no attempt names keeps its file, and a row whose main image no attempt names
      keeps its gallery. */
  lemma {:induction false} FixRunLeavesOthers(rs: RunState, atts: seq<Attempt>, k: nat, fetch: nat -> FetchReply,
                                              upload: nat -> Option<StorageId>, i: nat, f: FileField)
    requires i < |rs.store.products|
    requires forall j :: 0 <= j < |atts| ==> atts[j].productId != rs.store.products[i].id || atts[j].field != f
    ensures var r := FixRun(rs, atts, k, Attempter(fetch, upload));
      i < |r.store.products| && FieldOf(r.store.products[i], f) == FieldOf(rs.store.products[i], f)
      && (f == MainImage ==> r.store.products[i].images == rs.store.products[i].images)
    decreases |atts|
  {
    if atts != [] {
      var init := atts[..|atts| - 1];
      var before := FixRun(rs, init, k, Attempter(fetch, upload));
      var a := atts[|atts| - 1];
      FixRunLeavesOthers(rs, init, k, fetch, upload, i, f);
      FixRunKeepsRows(rs, init, k, fetch, upload);
      FixRunLast(rs, atts, k, fetch, upload);
      assert atts[|atts| - 1] == a;
      FixStepLeavesOthers(before.store, a.productId, a.field, fetch(k + |atts| - 1), upload(k + |atts| - 1), i, f);
    }
  }

  /** The attempts for the first `i + 1` reported products are those for the first `i`
      followed by the next product's. */
  lemma FixRunNextProblem(rs: RunState, ps: seq<Problem>, i: nat, step: (RunState, Attempt, nat) -> RunState)
    requires i < |ps|
    ensures |Attempts(ps[..i + 1])| == |Attempts(ps[..i])| + |ps[i].issues|
    ensures FixRun(rs, Attempts(ps[..i + 1]), 0, step) ==
      FixRun(FixRun(rs, Attempts(ps[..i]), 0, step), AttemptsOf(ps[i]), |Attempts(ps[..i])|, step)
  {
    assert ps[..i + 1][..i] == ps[..i];
    FixRunAppend(rs, Attempts(ps[..i]), AttemptsOf(ps[i]), 0, step);
  }

  /** The `products` table and the file storage the migration works on. */
  class ProductStore {
    var products: seq<Product>
    var files: map<StorageId, StoredFile>

    constructor (products: seq<Product>, files: map<StorageId, StoredFile>)
      ensures this.products == products && this.files == files
    {
      this.products := products;
      this.files := files;
    }

    /** `findProblematicProducts`: reads the tables, changes nothing. */
    method FindProblematicProducts() returns (problematic: seq<Problem>)
      ensures problematic == Problematic(products, files)
    {
      problematic := [];
      var i := 0;
      while i < |products|
        invariant 0 <= i <= |products|
        invariant problematic == Problematic(products[..i], files)
      {
        var product := products[i];
        var issues := ProductIssues(product);
        if |issues| > 0 {
          problematic := problematic + [Problem(product.id, product.name, issues)];
        }
        assert products[..i + 1][..i] == products[..i];
        i := i + 1;
      }
      assert products[..i] == products;
    }

    /** The four field checks of `findProblematicProducts` for one product. */
    method ProductIssues(product: Product) returns (issues: seq<FileField>)
      ensures issues == Issues(product, files)
    {
      issues := [];
      if product.mainImage.Some? && NeedsFix(files, product.mainImage.value) {
        issues := issues + [MainImage];
      }
      assert issues == Flag(product, MainImage, files);
      if product.flyer.Some? && NeedsFix(files, product.flyer.value) {
        issues := issues + [Flyer];
      }
      assert issues == Flag(product, MainImage, files) + Flag(product, Flyer, files);
      if product.bridgeCard.Some? && NeedsFix(files, product.bridgeCard.value) {
        issues := issues + [BridgeCard];
      }
      assert issues == Flag(product, MainImage, files) + Flag(product, Flyer, files) + Flag(product, BridgeCard, files);
      if product.visualaid.Some? && NeedsFix(files, product.visualaid.value) {
        issues := issues + [Visualaid];
      }
    }

    /** `updateProductFile`: patch the row, then delete the old file, ignoring a file
        that is already gone. */
    method UpdateProductFile(index: nat, f: FileField, newId: StorageId, oldId: StorageId)
      requires index < |products|
      modifies this
      ensures products == old(products)[index := PatchFile(old(products)[index], f, newId)]
      ensures files == old(files) - {oldId}
    {
      products := products[index := PatchFile(products[index], f, newId)];
      files := files - {oldId};
    }

    /** One (product, field) attempt of `fixFiles`: `None` when the file was replaced,
        otherwise the error message recorded for it. `fetch` and `uploaded` are the
        environment's answers to the HTTP fetch and the upload. */
    method FixField(productId: ProductId, field: FileField, fetch: FetchReply, uploaded: Option<StorageId>)
      returns (failure: Option<string>)
      modifies this
      ensures Store(products, files) == FixStep(Store(old(products), old(files)), productId, field, fetch, uploaded).store
      ensures failure == FixStep(Store(old(products), old(files)), productId, field, fetch, uploaded).failure
    {
      var index := FindProduct(products, productId);
      if index.None? {
        return Some("Product not found");
      }
      var storageId := FieldOf(products[index.value], field);
      if storageId.None? {
        return Some("Storage ID not found");
      }
      if storageId.value !in files {
        return Some("Could not get file URL");
      }
      if fetch.FetchFailed? {
        return Some("Failed to fetch file: " + fetch.statusText);
      }
      var bytes := files[storageId.value].bytes;
      var mime := DetectMimeType(bytes);
      if mime.None? {
        return Some("Could not detect file type");
      }
      if uploaded.None? {
        return Some("Failed to upload corrected file");
      }
      files := files[uploaded.value := StoredFile(bytes, mime.value)];
      UpdateProductFile(index.value, field, uploaded.value, storageId.value);
      failure := None;
    }

    /** The inner loop of `fixFiles` over the flagged fields of one product, the j-th being
        attempt `k + j`; `fixed` and `failures` carry on from the products before. */
    method FixProblem(q: Problem, k: nat, fetch: nat -> FetchReply, upload: nat -> Option<StorageId>,
                      fixed0: nat, failures0: seq<FixFailure>)
      returns (fixed: nat, failures: seq<FixFailure>)
      modifies this
      ensures RunState(Store(products, files), fixed, failures) ==
        FixRun(RunState(Store(old(products), old(files)), fixed0, failures0), AttemptsOf(q), k, Attempter(fetch, upload))
    {
      ghost var start := RunState(Store(products, files), fixed0, failures0);
      ghost var atts := AttemptsOf(q);
      fixed, failures := fixed0, failures0;
      var j := 0;
      while j < |q.issues|
        invariant 0 <= j <= |q.issues|
        invariant RunState(Store(products, files), fixed, failures) == FixRun(start, atts[..j], k, Attempter(fetch, upload))
      {
        FixRunSnoc(start, atts, j, k, Attempter(fetch, upload));
        var failure := FixField(q.productId, q.issues[j], fetch(k + j), upload(k + j));
        if failure.Some? {
          failures := failures + [FixFailure(q.name, q.issues[j], failure.value)];
        } else {
          fixed := fixed + 1;
        }
        j := j + 1;
      }
      assert atts[..j] == atts;
    }

    /** `fixFiles`. The HTTP fetch of a file and the upload of its corrected copy are the
        environment's: `fetch(k)` and `upload(k)` answer the k-th (product, field) attempt,
        `upload(k)` being the new storage id or `None` for a non-ok upload. */
    method FixFiles(fetch: nat -> FetchReply, upload: nat -> Option<StorageId>)
      returns (success: bool, fixed: nat, failures: seq<FixFailure>)
      modifies this
      ensures RunState(Store(products, files), fixed, failures) ==
        FixRun(RunState(Store(old(products), old(files)), 0, []), Attempts(Problematic(old(products), old(files))), 0, Attempter(fetch, upload))
      ensures success <==> failures == []
    {
      ghost var start := RunState(Store(products, files), 0, []);
      var problematic := FindProblematicProducts();
      fixed := 0;
      failures := [];
      if |problematic| == 0 {
        return true, 0, [];
      }
      var k := 0;
      var i := 0;
      while i < |problematic|
        invariant 0 <= i <= |problematic|
        invariant k == |Attempts(problematic[..i])|
        invariant RunState(Store(products, files), fixed, failures) == FixRun(start, Attempts(problematic[..i]), 0, Attempter(fetch, upload))
      {
        var q := problematic[i];
        FixRunNextProblem(start, problematic, i, Attempter(fetch, upload));
        fixed, failures := FixProblem(q, k, fetch, upload, fixed, failures);
        k := k + |q.issues|;
        i := i + 1;
      }
      assert problematic[..i] == problematic;
      success := |failures| == 0;
    }
  }

  /** What `fixFiles` reports: as many fixes and failures together as there are flagged
      (product, field) pairs, each failure naming a reported product and one of its
      issues, success exactly when nothing failed, and the rows with their ids and names
      kept. */
  lemma FixFilesReport(products: seq<Product>, files: map<StorageId, StoredFile>, fetch: nat -> FetchReply,
                       upload: nat -> Option<StorageId>)
    ensures var ps := Problematic(products, files);
      var r := FixRun(RunState(Store(products, files), 0, []), Attempts(ps), 0, Attempter(fetch, upload));
      r.fixed + |r.failures| == TotalIssues(ps)
      && (forall e :: e in r.failures ==> exists q :: q in ps && q.name == e.productName && e.field in q.issues)
      && |r.store.products| == |products|
      && forall i :: 0 <= i < |products| ==> r.store.products[i].id == products[i].id && r.store.products[i].name == products[i].name
  {
    var ps := Problematic(products, files);
    var atts := Attempts(ps);
    var r := FixRun(RunState(Store(products, files), 0, []), atts, 0, Attempter(fetch, upload));
    AttemptsOfReport(ps);
    FixRunAccounts(RunState(Store(products, files), 0, []), atts, 0, fetch, upload);
    FixRunKeepsRows(RunState(Store(products, files), 0, []), atts, 0, fetch, upload);
    forall e | e in r.failures
      ensures exists q :: q in ps && q.name == e.productName && e.field in q.issues
    {
      var i :| 0 <= i < |r.failures| && r.failures[i] == e;
      var j :| 0 <= j < |atts| && e.productName == atts[j].name && e.field == atts[j].field;
      assert atts[j] in atts;
    }
  }
}
