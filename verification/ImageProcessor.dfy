/** Processing one request: ordered updates of database, temporary files and uploads. */
module ImageProcessor {
  import opened Wrappers
  import opened Effects
  import CsvReader
  import CsvWriter

  type Product = CsvReader.Product

  /** A product as stored and as written to the output document. */
  type StoredProduct = CsvWriter.OutputProduct

  datatype Status = Accepted | Processing | Succeeded | Failed

  datatype Record = Record(status: Status, webhookUrl: string, products: seq<StoredProduct>)

  /** The fields an update sets; `None` leaves a field as it is. */
  datatype RecordUpdate = RecordUpdate(
    status: Option<Status>, webhookUrl: Option<string>, products: Option<seq<StoredProduct>>)

  /** `products` in the order the record enumerates its keys, each key being the product's name. */
  datatype Request = Request(requestId: string, products: seq<Product>, webhookUrl: string)

  /** A file in a request's temporary directory: as downloaded, or converted under `processed`. */
  datatype TempFile = Downloaded(name: string) | Converted(name: string)

  /** The temporary directories that exist, by request id. */
  type Dirs = map<string, set<TempFile>>

  /** Stored records by request id, and the directories. */
  datatype World = World(records: map<string, Record>, dirs: Dirs)

  datatype Phase =
    | MarkProcessing
    | Fetching | MakingDir | Saving | Converting | DroppingSource | Uploading | DroppingOutput
    | RemovingDir | MarkSucceeded | CallingWebhook
    | CleaningUp | MarkFailed
    | Returned | Rejected

  /**
   * One call of `process` between two awaits. `outs` are the output lists filled so far, the last
   * one being filled; `uploads`, `attempted` and `writes` record what happened, in order.
   */
  datatype Run = Run(
    phase: Phase, file: string, url: string, outs: seq<seq<string>>,
    uploads: seq<(string, string)>, attempted: seq<string>, writes: seq<Status>)

  function Begin(): Run {
    Run(MarkProcessing, "", "", [], [], [], [])
  }

  // The nested loops.

  function Last<T>(s: seq<T>): T
    requires s != []
  {
    s[|s| - 1]
  }

  function Front<T>(s: seq<T>): seq<T>
    requires s != []
  {
    s[..|s| - 1]
  }

  /** The product being filled has an image left. */
  predicate Pending(products: seq<Product>, outs: seq<seq<string>>) {
    0 < |outs| <= |products| && |Last(outs)| < |products[|outs| - 1].inputImageUrls|
  }

  function CurrentUrl(products: seq<Product>, outs: seq<seq<string>>): string
    requires Pending(products, outs)
  {
    products[|outs| - 1].inputImageUrls[|Last(outs)|]
  }

  /** Opens output lists up to the next product with an image left. */
  function Seek(products: seq<Product>, outs: seq<seq<string>>): seq<seq<string>>
    decreases |products| - |outs|
  {
    if Pending(products, outs) || |outs| >= |products| then outs else Seek(products, outs + [[]])
  }

  /** On to the next image, or out of the loops. */
  function Settle(products: seq<Product>, r: Run): Run {
    var outs := Seek(products, r.outs);
    r.(outs := outs, phase := if Pending(products, outs) then Fetching else RemovingDir)
  }

  // The steps.

  function OrElse<T>(field: Option<T>, before: T): T {
    if field.Some? then field.value else before
  }

  function ApplyUpdate(record: Record, update: RecordUpdate): Record {
    Record(OrElse(update.status, record.status), OrElse(update.webhookUrl, record.webhookUrl),
           OrElse(update.products, record.products))
  }

  function SetFields(records: map<string, Record>, id: string, update: RecordUpdate, o: Outcome): map<string, Record> {
    if id in records && TookEffect(o) then records[id := ApplyUpdate(records[id], update)] else records
  }

  function SetStatus(records: map<string, Record>, id: string, status: Status, o: Outcome): map<string, Record> {
    SetFields(records, id, RecordUpdate(Some(status), None, None), o)
  }

  /** The requested products with their output lists. */
  function Combine(products: seq<Product>, outs: seq<seq<string>>): (r: seq<StoredProduct>)
    ensures |r| == |products|
    ensures forall i | 0 <= i < |r| ::
              r[i] == WithOutputs(products[i], if i < |outs| then outs[i] else [])
  {
    seq(|products|, i requires 0 <= i < |products| =>
      WithOutputs(products[i], if i < |outs| then outs[i] else []))
  }

  function WithOutputs(p: Product, outputs: seq<string>): StoredProduct {
    CsvWriter.OutputProduct(p.name, p.inputImageUrls, outputs)
  }

  /** The success update: status and products together. */
  function SuccessUpdate(products: seq<StoredProduct>): RecordUpdate {
    RecordUpdate(Some(Succeeded), None, Some(products))
  }

  /** Creating a record whose id is taken fails. */
  function Created(records: map<string, Record>, id: string, record: Record, o: Outcome): map<string, Record> {
    if id !in records && TookEffect(o) then records[id := record] else records
  }

  /** The status a lookup finds; `None` when there is no record or the call fails. */
  function StatusOf(records: map<string, Record>, id: string, o: Outcome): Option<Status> {
    if id in records && o.Done? then Some(records[id].status) else None
  }

  /** `findOneAndUpdate` finds the record and does not fail. */
  predicate Updated(records: map<string, Record>, id: string, o: Outcome) {
    id in records && o.Done?
  }

  function Written(records: map<string, Record>, id: string, status: Status, o: Outcome, writes: seq<Status>)
    : seq<Status>
  {
    if id in records && TookEffect(o) then writes + [status] else writes
  }

  function MakeDir(dirs: Dirs, id: string, o: Outcome): Dirs {
    if TookEffect(o) && id !in dirs then dirs[id := {}] else dirs
  }

  /** A file can be written only where the directory exists. */
  function AddFile(dirs: Dirs, id: string, f: TempFile, o: Outcome): Dirs {
    if TookEffect(o) && id in dirs then dirs[id := dirs[id] + {f}] else dirs
  }

  predicate Holds(dirs: Dirs, id: string, f: TempFile) {
    id in dirs && f in dirs[id]
  }

  /** Converting reads the downloaded file and writes beside it. */
  function ConvertFile(dirs: Dirs, id: string, file: string, o: Outcome): Dirs {
    if Holds(dirs, id, Downloaded(file)) then AddFile(dirs, id, Converted(file), o) else dirs
  }

  /** Removing a file that does not exist fails. */
  function DropFile(dirs: Dirs, id: string, f: TempFile, o: Outcome): Dirs {
    if TookEffect(o) && id in dirs then dirs[id := dirs[id] - {f}] else dirs
  }

  /** Removing a directory that does not exist fails. */
  function DropDir(dirs: Dirs, id: string, o: Outcome): Dirs {
    if TookEffect(o) then dirs - {id} else dirs
  }

  function ImageStep(req: Request, w: World, r: Run, o: Outcome): (World, Run)
    requires Pending(req.products, r.outs)
  {
    var id, u := req.requestId, CurrentUrl(req.products, r.outs);
    match r.phase
    case Fetching =>
      (w, r.(attempted := r.attempted + [u],
             phase := if o.Done? then MakingDir else CleaningUp,
             file := if o.Done? then o.value else r.file))
    case MakingDir =>
      (w.(dirs := MakeDir(w.dirs, id, o)), r.(phase := if o.Done? then Saving else CleaningUp))
    case Saving =>
      (w.(dirs := AddFile(w.dirs, id, Downloaded(r.file), o)),
       r.(phase := if o.Done? && id in w.dirs then Converting else CleaningUp))
    case Converting =>
      (w.(dirs := ConvertFile(w.dirs, id, r.file, o)),
       r.(phase := if o.Done? && Holds(w.dirs, id, Downloaded(r.file)) then DroppingSource else CleaningUp))
    case DroppingSource =>
      (w.(dirs := DropFile(w.dirs, id, Downloaded(r.file), o)),
       r.(phase := if o.Done? && Holds(w.dirs, id, Downloaded(r.file)) then Uploading else CleaningUp))
    case Uploading =>
      (w, if o.Done? && Holds(w.dirs, id, Converted(r.file)) then r.(phase := DroppingOutput, url := o.value)
          else r.(phase := CleaningUp))
    case _ =>
      (w.(dirs := DropFile(w.dirs, id, Converted(r.file), o)),
       if o.Done? && Holds(w.dirs, id, Converted(r.file)) then
         Settle(req.products, r.(outs := Front(r.outs) + [Last(r.outs) + [r.url]],
                                 uploads := r.uploads + [(u, r.url)]))
       else r.(phase := CleaningUp))
  }

  predicate InImage(phase: Phase) {
    phase in {Fetching, MakingDir, Saving, Converting, DroppingSource, Uploading, DroppingOutput}
  }

  /** The world and the run after the run's next awaited call ends with `o`. */
  function Step(req: Request, w: World, r: Run, o: Outcome): (World, Run) {
    var id := req.requestId;
    if InImage(r.phase) && Pending(req.products, r.outs) then ImageStep(req, w, r, o)
    else match r.phase
      case MarkProcessing =>
        var r' := r.(writes := Written(w.records, id, Processing, o, r.writes));
        (w.(records := SetStatus(w.records, id, Processing, o)),
         if Updated(w.records, id, o) then Settle(req.products, r') else r'.(phase := CleaningUp))
      case RemovingDir =>
        (w.(dirs := DropDir(w.dirs, id, o)),
         r.(phase := if id in w.dirs && o.Done? then MarkSucceeded else CleaningUp))
      case MarkSucceeded =>
        (w.(records := SetFields(w.records, id, SuccessUpdate(Combine(req.products, r.outs)), o)),
         r.(writes := Written(w.records, id, Succeeded, o, r.writes),
            phase := if Updated(w.records, id, o) then CallingWebhook else CleaningUp))
      case CallingWebhook =>
        (w, r.(phase := if o.Done? then Returned else CleaningUp))
      case CleaningUp =>
        (w.(dirs := DropDir(w.dirs, id, o)),
         r.(phase := if id in w.dirs && o.Done? then MarkFailed else Rejected))
      case MarkFailed =>
        (w.(records := SetStatus(w.records, id, Failed, o)),
         r.(writes := Written(w.records, id, Failed, o, r.writes),
            phase := if Updated(w.records, id, o) then Returned else Rejected))
      case _ => (w, r)
  }

  predicate Finished(r: Run) {
    r.phase in {Returned, Rejected}
  }

  /** One call of `process` on its own, its awaited calls ending as `tape` says. */
  function Perform(req: Request, w: World, tape: nat -> Outcome, n: nat): (World, Run) {
    if n == 0 then (w, Begin())
    else
      var (v, r) := Perform(req, w, tape, n - 1);
      Step(req, v, r, tape(n - 1))
  }

  // Alignment: outputs against requested images.

  /** All requested images, in the order of the nested loops. */
  function Images(products: seq<Product>): seq<string> {
    if products == [] then [] else Images(Front(products)) + Last(products).inputImageUrls
  }

  /** No list is longer than its product's, and all but the last are complete. */
  predicate Aligned(products: seq<Product>, outs: seq<seq<string>>) {
    && |outs| <= |products|
    && (forall i | 0 <= i < |outs| - 1 :: |outs[i]| == |products[i].inputImageUrls|)
    && (outs != [] ==> |Last(outs)| <= |products[|outs| - 1].inputImageUrls|)
  }

  predicate Complete(products: seq<Product>, outs: seq<seq<string>>) {
    |outs| == |products| && forall i | 0 <= i < |outs| :: |outs[i]| == |products[i].inputImageUrls|
  }

  /** The images that have an output. */
  function DoneImages(products: seq<Product>, outs: seq<seq<string>>): seq<string>
    requires Aligned(products, outs)
  {
    if outs == [] then []
    else Images(products[..|outs| - 1]) + products[|outs| - 1].inputImageUrls[..|Last(outs)|]
  }

  function Zip(urls: seq<string>, outs: seq<string>): (r: seq<(string, string)>)
    requires |outs| <= |urls|
    ensures |r| == |outs| && forall i | 0 <= i < |r| :: r[i] == (urls[i], outs[i])
  {
    seq(|outs|, i requires 0 <= i < |outs| => (urls[i], outs[i]))
  }

  /** Each image that has an output, with that output. */
  function Pairs(products: seq<Product>, outs: seq<seq<string>>): seq<(string, string)>
    requires Aligned(products, outs)
    decreases |outs|
  {
    if outs == [] then []
    else
      Pairs(products, Front(outs)) + Zip(products[|outs| - 1].inputImageUrls, Last(outs))
  }

  /** Images were taken in order, each output is the upload result of its image. */
  predicate Progress(products: seq<Product>, r: Run) {
    && Aligned(products, r.outs)
    && r.uploads == Pairs(products, r.outs)
    && var done := DoneImages(products, r.outs);
       var next := if Pending(products, r.outs) then done + [CurrentUrl(products, r.outs)] else done;
       match r.phase
       case MarkProcessing => r.outs == [] && r.attempted == [] && Succeeded !in r.writes
       case Fetching => Pending(products, r.outs) && r.attempted == done && Succeeded !in r.writes
       case MakingDir | Saving | Converting | DroppingSource | Uploading | DroppingOutput =>
         Pending(products, r.outs) && r.attempted == next && Succeeded !in r.writes
       case RemovingDir | MarkSucceeded | CallingWebhook => Complete(products, r.outs) && r.attempted == done
       case _ =>
         && (r.attempted == done || r.attempted == next)
         && (Succeeded in r.writes ==> Complete(products, r.outs) && r.attempted == done)
  }

  lemma {:induction false} SeekIsAligned(products: seq<Product>, outs: seq<seq<string>>)
    requires Aligned(products, outs)
    ensures var s := Seek(products, outs);
            && Aligned(products, s)
            && Pairs(products, s) == Pairs(products, outs)
            && DoneImages(products, s) == DoneImages(products, outs)
            && (Pending(products, s) || Complete(products, s))
    decreases |products| - |outs|
  {
    if !Pending(products, outs) && |outs| < |products| {
      OpenList(products, outs);
      SeekIsAligned(products, outs + [[]]);
    }
  }

  lemma OpenList(products: seq<Product>, outs: seq<seq<string>>)
    requires Aligned(products, outs) && !Pending(products, outs) && |outs| < |products|
    ensures Aligned(products, outs + [[]])
    ensures Pairs(products, outs + [[]]) == Pairs(products, outs)
    ensures DoneImages(products, outs + [[]]) == DoneImages(products, outs)
  {
    var more := outs + [[]];
    assert Front(more) == outs && Last(more) == [];
    assert Pairs(products, outs) + Zip(products[|outs|].inputImageUrls, []) == Pairs(products, outs);
    assert DoneImages(products, more) == Images(products[..|outs|]);
    if outs != [] {
      var upto := products[..|outs|];
      assert Front(upto) == products[..|outs| - 1];
      assert Last(upto).inputImageUrls[..|Last(outs)|] == Last(upto).inputImageUrls;
    }
  }

  lemma AddOutput(products: seq<Product>, outs: seq<seq<string>>, url: string)
    requires Aligned(products, outs) && Pending(products, outs)
    ensures var more := Front(outs) + [Last(outs) + [url]];
            && Aligned(products, more)
            && Pairs(products, more) == Pairs(products, outs) + [(CurrentUrl(products, outs), url)]
            && DoneImages(products, more) == DoneImages(products, outs) + [CurrentUrl(products, outs)]
  {
    var more := Front(outs) + [Last(outs) + [url]];
    var urls := products[|outs| - 1].inputImageUrls;
    assert Front(more) == Front(outs) && Last(more) == Last(outs) + [url];
    assert Zip(urls, Last(more)) == Zip(urls, Last(outs)) + [(CurrentUrl(products, outs), url)];
    assert urls[..|Last(more)|] == urls[..|Last(outs)|] + [urls[|Last(outs)|]];
  }

  lemma SettleKeepsProgress(products: seq<Product>, r: Run)
    requires Aligned(products, r.outs) && r.uploads == Pairs(products, r.outs)
    requires r.attempted == DoneImages(products, r.outs) && Succeeded !in r.writes
    ensures Progress(products, Settle(products, r))
  {
    hide Pairs, DoneImages, Seek;
    SeekIsAligned(products, r.outs);
  }

  lemma StepKeepsProgress(req: Request, w: World, r: Run, o: Outcome)
    requires Progress(req.products, r)
    ensures Progress(req.products, Step(req, w, r, o).1)
  {
    hide Pairs, DoneImages, Settle, Aligned, Complete;
    var products := req.products;
    if r.phase == MarkProcessing {
      NothingDone(products);
      SettleKeepsProgress(products, r.(writes := Written(w.records, req.requestId, Processing, o, r.writes)));
    } else if r.phase == DroppingOutput {
      AddOutput(products, r.outs, r.url);
      SettleKeepsProgress(products, r.(outs := Front(r.outs) + [Last(r.outs) + [r.url]],
                                       uploads := r.uploads + [(CurrentUrl(products, r.outs), r.url)]));
    }
  }

  lemma NothingDone(products: seq<Product>)
    ensures Aligned(products, []) && Pairs(products, []) == [] && DoneImages(products, []) == []
  {
  }

  lemma {:induction false} ImagesPrefix(products: seq<Product>, k: nat)
    requires k <= |products|
    ensures Images(products[..k]) <= Images(products)
    decreases |products|
  {
    if k == |products| {
      assert products[..k] == products;
    } else {
      ImagesPrefix(Front(products), k);
      assert Front(products)[..k] == products[..k];
    }
  }

  lemma DoneIsPrefix(products: seq<Product>, outs: seq<seq<string>>)
    requires Aligned(products, outs)
    ensures DoneImages(products, outs) <= Images(products)
    ensures Pending(products, outs) ==> DoneImages(products, outs) + [CurrentUrl(products, outs)] <= Images(products)
    ensures Complete(products, outs) ==> DoneImages(products, outs) == Images(products)
  {
    if outs != [] {
      var k := |outs|;
      var upto := products[..k];
      ImagesPrefix(products, k);
      assert Front(upto) == products[..k - 1] && Last(upto) == products[k - 1];
      var urls := products[k - 1].inputImageUrls;
      assert Images(upto) == Images(products[..k - 1]) + urls;
      if Complete(products, outs) {
        assert upto == products && urls[..|Last(outs)|] == urls;
      }
    }
  }

  /** All lists but the last are complete. */
  lemma DoneOfFront(products: seq<Product>, outs: seq<seq<string>>)
    requires Aligned(products, outs) && outs != []
    ensures Aligned(products, Front(outs))
    ensures DoneImages(products, Front(outs)) == Images(products[..|outs| - 1])
  {
    var front := Front(outs);
    if front != [] {
      var k := |front|;
      var upto := products[..k];
      assert Front(upto) == products[..k - 1] && Last(upto) == products[k - 1];
      assert products[k - 1].inputImageUrls[..|Last(front)|] == products[k - 1].inputImageUrls;
    }
  }

  lemma {:induction false} PairsAreDone(products: seq<Product>, outs: seq<seq<string>>)
    requires Aligned(products, outs)
    ensures var pairs, done := Pairs(products, outs), DoneImages(products, outs);
            |pairs| == |done| && forall k | 0 <= k < |pairs| :: pairs[k].0 == done[k]
    decreases |outs|
  {
    hide Images, Aligned;
    if outs != [] {
      DoneOfFront(products, outs);
      PairsAreDone(products, Front(outs));
      LastIsShort(products, outs);
    }
  }

  lemma LastIsShort(products: seq<Product>, outs: seq<seq<string>>)
    requires Aligned(products, outs) && outs != []
    ensures |outs| <= |products| && |Last(outs)| <= |products[|outs| - 1].inputImageUrls|
  {
  }

  /**
   * All or nothing: images are attempted in the nested order, at most one more than have an
   * upload result, so an image that fails is the last one attempted.
   */
  lemma ImagesInOrder(products: seq<Product>, r: Run)
    requires Progress(products, r)
    ensures r.attempted <= Images(products)
    ensures |r.uploads| <= |r.attempted| <= |r.uploads| + 1
    ensures forall k | 0 <= k < |r.uploads| :: r.uploads[k].0 == Images(products)[k]
    ensures r.phase in {RemovingDir, MarkSucceeded, CallingWebhook} ==> r.attempted == Images(products)
  {
    hide Pairs, DoneImages, Images, Aligned, Complete;
    NothingDone(products);
    DoneIsPrefix(products, r.outs);
    PairsAreDone(products, r.outs);
  }

  lemma {:induction false} RunsInOrder(req: Request, w: World, tape: nat -> Outcome, n: nat)
    ensures Progress(req.products, Perform(req, w, tape, n).1)
  {
    hide Step, Progress;
    if n == 0 {
      BeginIsProgress(req.products);
    } else {
      RunsInOrder(req, w, tape, n - 1);
      var (v, r) := Perform(req, w, tape, n - 1);
      StepKeepsProgress(req, v, r, tape(n - 1));
    }
  }

  lemma BeginIsProgress(products: seq<Product>)
    ensures Progress(products, Begin())
  {
    NothingDone(products);
  }

  // Which awaited call is which, and what the outputs are.

  /** Each output is the answer of its image's upload: the seventh call of image `k` is `7 * k + 6`. */
  predicate AnswersOf(tape: nat -> Outcome, outputs: seq<string>) {
    forall k | 0 <= k < |outputs| :: tape(7 * k + 6) == Done(outputs[k])
  }

  function Seconds(pairs: seq<(string, string)>): (r: seq<string>)
    ensures |r| == |pairs| && forall i | 0 <= i < |r| :: r[i] == pairs[i].1
  {
    seq(|pairs|, i requires 0 <= i < |pairs| => pairs[i].1)
  }

  /** The first call is the status update; then come seven for each image, from download to clean-up. */
  function CallNumber(phase: Phase, done: nat): nat {
    match phase
    case MarkProcessing => 0
    case Fetching | RemovingDir => 7 * done + 1
    case MakingDir | MarkSucceeded => 7 * done + 2
    case Saving | CallingWebhook => 7 * done + 3
    case Converting => 7 * done + 4
    case DroppingSource => 7 * done + 5
    case Uploading => 7 * done + 6
    case DroppingOutput => 7 * done + 7
    case _ => 0
  }

  /**
   * While the try block is under way the next call is the one its phase says, the file is the one the
   * image's download named and the URL the one its upload answered; so are all outputs so far.
   */
  predicate OnTape(r: Run, tape: nat -> Outcome, n: nat) {
    var done := |r.uploads|;
    && AnswersOf(tape, Seconds(r.uploads))
    && (InTry(r.phase) ==> n == CallNumber(r.phase, done))
    && (InImage(r.phase) && r.phase != Fetching ==> tape(7 * done + 1) == Done(r.file))
    && (r.phase == DroppingOutput ==> tape(7 * done + 6) == Done(r.url))
  }

  lemma AnswersExtend(tape: nat -> Outcome, uploads: seq<(string, string)>, upload: (string, string))
    requires AnswersOf(tape, Seconds(uploads)) && tape(7 * |uploads| + 6) == Done(upload.1)
    ensures AnswersOf(tape, Seconds(uploads + [upload]))
  {
    var more := Seconds(uploads + [upload]);
    forall k | 0 <= k < |more| ensures tape(7 * k + 6) == Done(more[k]) {
      assert k < |uploads| ==> more[k] == Seconds(uploads)[k];
    }
  }

  lemma ImageStepStaysOnTape(req: Request, w: World, r: Run, tape: nat -> Outcome, n: nat)
    requires OnTape(r, tape, n) && InImage(r.phase) && Pending(req.products, r.outs)
    ensures OnTape(ImageStep(req, w, r, tape(n)).1, tape, n + 1)
  {
    hide Seek, AnswersOf, Seconds;
    if r.phase == DroppingOutput {
      AnswersExtend(tape, r.uploads, (CurrentUrl(req.products, r.outs), r.url));
    }
  }

  lemma StepStaysOnTape(req: Request, w: World, r: Run, tape: nat -> Outcome, n: nat)
    requires OnTape(r, tape, n) && (InImage(r.phase) ==> Pending(req.products, r.outs))
    requires r.phase == MarkProcessing ==> r.uploads == []
    ensures OnTape(Step(req, w, r, tape(n)).1, tape, n + 1)
  {
    hide Seek, Pending, Combine, AnswersOf, Seconds, ImageStep;
    if InImage(r.phase) {
      StepInImage(req, w, r, tape(n));
      hide Step;
      ImageStepStaysOnTape(req, w, r, tape, n);
    }
  }

  lemma {:induction false} CallsAreOnTape(req: Request, w: World, tape: nat -> Outcome, n: nat)
    ensures OnTape(Perform(req, w, tape, n).1, tape, n)
  {
    hide Step, Progress, OnTape;
    if n == 0 {
      BeginIsOnTape(tape);
    } else {
      CallsAreOnTape(req, w, tape, n - 1);
      RunsInOrder(req, w, tape, n - 1);
      var (v, r) := Perform(req, w, tape, n - 1);
      ProgressIsPending(req.products, r);
      ProgressStarts(req.products, r);
      StepStaysOnTape(req, v, r, tape, n - 1);
    }
  }

  lemma BeginIsOnTape(tape: nat -> Outcome)
    ensures OnTape(Begin(), tape, 0)
  {
  }

  lemma ProgressStarts(products: seq<Product>, r: Run)
    requires Progress(products, r)
    ensures r.phase == MarkProcessing ==> r.uploads == []
  {
    NothingDone(products);
  }

  /**
   * For every call and every number of awaits: the images that have a result are the first ones in the
   * nested order, and the result of each is what its own upload call answered.
   */
  lemma UploadsAreAnswers(req: Request, w: World, tape: nat -> Outcome, n: nat)
    ensures var uploads := Perform(req, w, tape, n).1.uploads;
            && |uploads| <= |Images(req.products)|
            && forall k | 0 <= k < |uploads| ::
                 uploads[k].0 == Images(req.products)[k] && tape(7 * k + 6) == Done(uploads[k].1)
  {
    hide Perform, Images, Progress;
    CallsAreOnTape(req, w, tape, n);
    RunsInOrder(req, w, tape, n);
    var r := Perform(req, w, tape, n).1;
    ImagesInOrder(req.products, r);
    assert forall k | 0 <= k < |r.uploads| :: Seconds(r.uploads)[k] == r.uploads[k].1;
  }

  /** All outputs of stored products, in the nested order. */
  function Outputs(stored: seq<StoredProduct>): seq<string> {
    if stored == [] then [] else Outputs(Front(stored)) + Last(stored).outputImageUrls
  }

  lemma CompleteIsAligned(products: seq<Product>, outs: seq<seq<string>>, k: nat)
    requires Complete(products, outs) && k <= |outs|
    ensures Aligned(products, outs[..k])
  {
  }

  lemma {:induction false} OutputsOfCombined(products: seq<Product>, outs: seq<seq<string>>, k: nat)
    requires Complete(products, outs) && k <= |outs|
    ensures Aligned(products, outs[..k])
    ensures Outputs(Combine(products, outs)[..k]) == Seconds(Pairs(products, outs[..k]))
  {
    hide Combine, Aligned;
    CompleteIsAligned(products, outs, k);
    if k > 0 {
      var stored := Combine(products, outs);
      OutputsOfCombined(products, outs, k - 1);
      assert Front(stored[..k]) == stored[..k - 1] && Front(outs[..k]) == outs[..k - 1];
      var before, zip := Pairs(products, outs[..k - 1]), Zip(products[k - 1].inputImageUrls, outs[k - 1]);
      assert Last(outs[..k]) == outs[k - 1] && Last(stored[..k]) == stored[k - 1];
      SecondsOfZip(before, products[k - 1].inputImageUrls, outs[k - 1]);
    }
  }

  lemma SecondsOfZip(before: seq<(string, string)>, urls: seq<string>, outs: seq<string>)
    requires |outs| <= |urls|
    ensures Seconds(before + Zip(urls, outs)) == Seconds(before) + outs
  {
  }

  // Status order.

  /** What the run wrote so far, and that the record shows it. */
  predicate Ordered(req: Request, w: World, r: Run) {
    var id := req.requestId;
    && (r.writes != [] ==> id in w.records && w.records[id].status == Last(r.writes))
    && (Succeeded in r.writes ==> id in w.records && w.records[id].products == Combine(req.products, r.outs))
    && match r.phase
       case MarkProcessing => r.writes == []
       case Fetching | MakingDir | Saving | Converting | DroppingSource | Uploading | DroppingOutput | RemovingDir =>
         r.writes == [Processing]
       case MarkSucceeded => r.writes == [Processing] && id !in w.dirs
       case CallingWebhook => r.writes == [Processing, Succeeded] && id !in w.dirs
       case CleaningUp =>
         r.writes in {[], [Processing]} || (r.writes == [Processing, Succeeded] && id !in w.dirs)
       case MarkFailed => r.writes in {[], [Processing]} && id !in w.dirs
       case Returned => r.writes in {[Failed], [Processing, Failed], [Processing, Succeeded]} && id !in w.dirs
       case Rejected => r.writes in {[], [Processing], [Failed], [Processing, Failed], [Processing, Succeeded]}
  }

  lemma OrderAtStart(req: Request, w: World, r: Run, o: Outcome)
    requires Ordered(req, w, r) && r.phase == MarkProcessing
    ensures Ordered(req, Step(req, w, r, o).0, Step(req, w, r, o).1)
  {
    hide Pending, Combine, ImageStep, Settle;
    SettlePhase(req.products, r.(writes := [Processing]));
    assert [] + [Processing] == [Processing];
  }

  lemma StepInImage(req: Request, w: World, r: Run, o: Outcome)
    requires InImage(r.phase)
    ensures Step(req, w, r, o) == if Pending(req.products, r.outs) then ImageStep(req, w, r, o) else (w, r)
  {
    hide Pending, Combine, ImageStep, Settle;
  }

  lemma OrderInImages(req: Request, w: World, r: Run, o: Outcome)
    requires Ordered(req, w, r) && InImage(r.phase)
    ensures Ordered(req, Step(req, w, r, o).0, Step(req, w, r, o).1)
  {
    hide Pending, Combine, ImageStep, Step;
    StepInImage(req, w, r, o);
    if Pending(req.products, r.outs) {
      ImageStepWritesNothing(req, w, r, o);
    }
  }

  lemma OrderAtTheEnd(req: Request, w: World, r: Run, o: Outcome)
    requires Ordered(req, w, r) && r.phase in {RemovingDir, MarkSucceeded, CallingWebhook}
    ensures Ordered(req, Step(req, w, r, o).0, Step(req, w, r, o).1)
  {
    hide Pending, Combine, ImageStep, Settle;
    assert [Processing] + [Succeeded] == [Processing, Succeeded];
  }

  lemma OrderAtCleanup(req: Request, w: World, r: Run, o: Outcome)
    requires Ordered(req, w, r) && r.phase == CleaningUp
    ensures Ordered(req, Step(req, w, r, o).0, Step(req, w, r, o).1)
  {
    hide Pending, Combine, ImageStep, Settle;
  }

  lemma OrderAtFailure(req: Request, w: World, r: Run, o: Outcome)
    requires Ordered(req, w, r) && r.phase == MarkFailed
    ensures Ordered(req, Step(req, w, r, o).0, Step(req, w, r, o).1)
  {
    hide Pending, Combine, ImageStep, Settle;
    assert r.writes + [Failed] == if r.writes == [] then [Failed] else [Processing, Failed];
  }

  lemma StepKeepsOrder(req: Request, w: World, r: Run, o: Outcome)
    requires Ordered(req, w, r)
    ensures Ordered(req, Step(req, w, r, o).0, Step(req, w, r, o).1)
  {
    hide Ordered, ImageStep, Settle, Pending, Combine;
    if r.phase == MarkProcessing {
      OrderAtStart(req, w, r, o);
    } else if InImage(r.phase) {
      OrderInImages(req, w, r, o);
    } else if r.phase in {RemovingDir, MarkSucceeded, CallingWebhook} {
      OrderAtTheEnd(req, w, r, o);
    } else if r.phase == CleaningUp {
      OrderAtCleanup(req, w, r, o);
    } else if r.phase == MarkFailed {
      OrderAtFailure(req, w, r, o);
    }
  }

  lemma SettlePhase(products: seq<Product>, r: Run)
    ensures var s := Settle(products, r);
            s.phase in {Fetching, RemovingDir} && s.writes == r.writes && s.attempted == r.attempted
  {
  }

  lemma ImageStepWritesNothing(req: Request, w: World, r: Run, o: Outcome)
    requires InImage(r.phase) && Pending(req.products, r.outs)
    ensures var (v, s) := ImageStep(req, w, r, o);
            v.records == w.records && s.writes == r.writes &&
            (InImage(s.phase) || s.phase in {RemovingDir, CleaningUp})
  {
    hide Seek;
  }

  /** A step touches only its own request's record and directory. */
  lemma StepIsLocal(req: Request, w: World, r: Run, o: Outcome)
    ensures var v := Step(req, w, r, o).0;
            && (forall id | id != req.requestId ::
                  (id in v.records <==> id in w.records) && (id in v.dirs <==> id in w.dirs))
            && (forall id | id != req.requestId && id in w.records :: v.records[id] == w.records[id])
            && (forall id | id != req.requestId && id in w.dirs :: v.dirs[id] == w.dirs[id])
            && (req.requestId in v.records <==> req.requestId in w.records)
  {
    hide Settle, Pending, Combine, ApplyUpdate;
  }

  /** The order of statuses a request moves up. */
  function Rank(status: Status): nat {
    match status
    case Accepted => 0
    case Processing => 1
    case Succeeded => 2
    case Failed => 3
  }

  /**
   * In one call, for any failures: the statuses written rise, Succeeded is never followed by
   * Failed, and when the call returns its directory is gone and its status is final.
   */
  lemma {:induction false} StatusesRise(req: Request, w: World, tape: nat -> Outcome, n: nat)
    ensures var (v, r) := Perform(req, w, tape, n);
            && Ordered(req, v, r)
            && (forall i, j | 0 <= i < j < |r.writes| :: Rank(r.writes[i]) < Rank(r.writes[j]))
            && !(Succeeded in r.writes && Failed in r.writes)
            && (r.phase == Returned ==>
                  && req.requestId in v.records && v.records[req.requestId].status in {Succeeded, Failed}
                  && req.requestId !in v.dirs)
  {
    hide Step, Ordered;
    if n == 0 {
      BeginIsOrdered(req, w);
    } else {
      StatusesRise(req, w, tape, n - 1);
      var (v, r) := Perform(req, w, tape, n - 1);
      StepKeepsOrder(req, v, r, tape(n - 1));
    }
    var (v, r) := Perform(req, w, tape, n);
    OrderedRises(req, v, r);
  }

  lemma BeginIsOrdered(req: Request, w: World)
    ensures Ordered(req, w, Begin())
  {
  }

  lemma OrderedRises(req: Request, w: World, r: Run)
    requires Ordered(req, w, r)
    ensures forall i, j | 0 <= i < j < |r.writes| :: Rank(r.writes[i]) < Rank(r.writes[j])
    ensures !(Succeeded in r.writes && Failed in r.writes)
    ensures r.phase == Returned ==>
              && req.requestId in w.records && w.records[req.requestId].status in {Succeeded, Failed}
              && req.requestId !in w.dirs
  {
    hide Combine;
  }

  /**
   * Whenever a call has written Succeeded, every image was attempted and has an upload result, and
   * the record holds the requested products, each output being what the upload of its image answered.
   */
  lemma SuccessIsAligned(req: Request, w: World, tape: nat -> Outcome, n: nat)
    ensures var (v, r) := Perform(req, w, tape, n);
            Succeeded in r.writes ==>
              && req.requestId in v.records && v.records[req.requestId].status == Succeeded
              && Complete(req.products, r.outs)
              && r.attempted == Images(req.products) && |r.uploads| == |Images(req.products)|
              && r.uploads == Pairs(req.products, r.outs)
              && v.records[req.requestId].products == Combine(req.products, r.outs)
              && var outputs := Outputs(v.records[req.requestId].products);
                 |outputs| == |Images(req.products)| && AnswersOf(tape, outputs)
  {
    hide Pairs, DoneImages, Images, Perform, Combine, AnswersOf, Seconds, Outputs, Step;
    RunsInOrder(req, w, tape, n);
    StatusesRise(req, w, tape, n);
    var (v, r) := Perform(req, w, tape, n);
    DoneIsPrefix(req.products, r.outs);
    PairsAreDone(req.products, r.outs);
    CallsAreOnTape(req, w, tape, n);
    if Succeeded in r.writes {
      OutputsOfCombined(req.products, r.outs, |r.outs|);
      assert r.outs[..|r.outs|] == r.outs;
      assert Combine(req.products, r.outs)[..|r.outs|] == Combine(req.products, r.outs);
    }
  }

  /** What the stored products are, entry by entry. */
  lemma CombineIsAligned(products: seq<Product>, outs: seq<seq<string>>)
    requires Complete(products, outs)
    ensures var stored := Combine(products, outs);
            && |stored| == |products|
            && forall i | 0 <= i < |stored| ::
                 && stored[i].name == products[i].name
                 && stored[i].inputImageUrls == products[i].inputImageUrls
                 && stored[i].outputImageUrls == outs[i]
                 && |stored[i].outputImageUrls| == |stored[i].inputImageUrls|
  {
  }

  // What a step writes to its record, and what it leaves.

  /** The status that the next call of the run writes if it takes effect. */
  function NextWrite(phase: Phase): Option<Status> {
    match phase
    case MarkProcessing => Some(Processing)
    case MarkSucceeded => Some(Succeeded)
    case MarkFailed => Some(Failed)
    case _ => None
  }

  /** A status update sets the status; only the success update sets products, outputs included. */
  lemma StepWrites(req: Request, w: World, r: Run, o: Outcome)
    requires req.requestId in w.records
    ensures var (v, s) := Step(req, w, r, o);
            var id := req.requestId;
            && id in v.records
            && v.records[id].status ==
               (if NextWrite(r.phase).Some? && TookEffect(o) then NextWrite(r.phase).value else w.records[id].status)
            && s.writes == r.writes +
                           (if NextWrite(r.phase).Some? && TookEffect(o) then [NextWrite(r.phase).value] else [])
            && v.records[id].webhookUrl == w.records[id].webhookUrl
            && (r.phase != MarkSucceeded || !TookEffect(o) ==> v.records[id].products == w.records[id].products)
  {
    hide Seek, Pending, Combine;
  }

  /**
   * After any number of awaits of any call, a lookup that does not fail answers the last status the
   * call wrote, or the one from before; the webhook URL never changes, and the products only together
   * with Succeeded.
   */
  lemma {:induction false} LookupAfterCall(req: Request, w: World, tape: nat -> Outcome, n: nat, o: Outcome)
    requires req.requestId in w.records
    ensures var (v, r) := Perform(req, w, tape, n);
            var id := req.requestId;
            && id in v.records
            && StatusOf(v.records, id, o) ==
               (if o.Faulted? then None
                else if r.writes == [] then Some(w.records[id].status)
                else Some(Last(r.writes)))
            && v.records[id].webhookUrl == w.records[id].webhookUrl
            && (Succeeded !in r.writes ==> v.records[id].products == w.records[id].products)
  {
    hide Step;
    if n > 0 {
      LookupAfterCall(req, w, tape, n - 1, Done(""));
      var (v, r) := Perform(req, w, tape, n - 1);
      StepWrites(req, v, r, tape(n - 1));
    }
  }

  // Temporary files.

  function Files(w: World, id: string): set<TempFile> {
    if id in w.dirs then w.dirs[id] else {}
  }

  /** What a run that began with no file may have left in its directory. */
  predicate Tidy(id: string, w: World, r: Run) {
    var source, output := {Downloaded(r.file)}, {Converted(r.file)};
    match r.phase
    case Converting => Files(w, id) <= source
    case DroppingSource => Files(w, id) <= source + output
    case Uploading | DroppingOutput => Files(w, id) <= output
    case CleaningUp | Rejected => Files(w, id) <= source + output
    case _ => Files(w, id) == {}
  }

  lemma StepKeepsTidy(req: Request, w: World, r: Run, o: Outcome)
    requires Tidy(req.requestId, w, r) && (InImage(r.phase) ==> Pending(req.products, r.outs))
    ensures Tidy(req.requestId, Step(req, w, r, o).0, Step(req, w, r, o).1)
  {
    hide Seek, Pending, Combine;
  }

  lemma AtMostTwo(files: set<TempFile>, a: TempFile, b: TempFile)
    requires files <= {a} + {b}
    ensures |files| <= 2
  {
    var both := {a} + {b};
    assert |both| <= 2;
    SubsetSize(files, both);
  }

  lemma {:induction false} SubsetSize(a: set<TempFile>, b: set<TempFile>)
    requires a <= b
    ensures |a| <= |b|
  {
    if a != {} {
      var x :| x in a;
      SubsetSize(a - {x}, b - {x});
    }
  }

  /** However many images, at most two temporary files of the request exist at any time. */
  lemma {:induction false} BoundedFiles(req: Request, w: World, tape: nat -> Outcome, n: nat)
    requires Files(w, req.requestId) == {}
    ensures var (v, r) := Perform(req, w, tape, n);
            && Tidy(req.requestId, v, r)
            && |Files(v, req.requestId)| <= 2
            && forall id | id != req.requestId :: Files(v, id) == Files(w, id)
  {
    hide Step, Progress;
    if n > 0 {
      BoundedFiles(req, w, tape, n - 1);
      var (v, r) := Perform(req, w, tape, n - 1);
      RunsInOrder(req, w, tape, n - 1);
      ProgressIsPending(req.products, r);
      StepKeepsTidy(req, v, r, tape(n - 1));
      StepIsLocal(req, v, r, tape(n - 1));
    }
    var (v, r) := Perform(req, w, tape, n);
    AtMostTwo(Files(v, req.requestId), Downloaded(r.file), Converted(r.file));
  }

  lemma ProgressIsPending(products: seq<Product>, r: Run)
    requires Progress(products, r)
    ensures InImage(r.phase) ==> Pending(products, r.outs)
  {
  }

  // How a whole call ends.

  lemma PerformNothing(req: Request, w: World, tape: nat -> Outcome)
    ensures Perform(req, w, tape, 0) == (w, Begin())
  {
  }

  lemma PerformNext(req: Request, w: World, tape: nat -> Outcome, n: nat)
    ensures var (v, r) := Perform(req, w, tape, n);
            Perform(req, w, tape, n + 1) == Step(req, v, r, tape(n))
  {
    hide Step;
  }

  function PhaseAt(req: Request, w: World, tape: nat -> Outcome, n: nat): Phase {
    Perform(req, w, tape, n).1.phase
  }

  predicate InTry(phase: Phase) {
    phase !in {CleaningUp, MarkFailed, Returned, Rejected}
  }

  /** What a call has in its directory; `leftover` when an earlier call left it one. */
  predicate DirKnown(leftover: bool, id: string, w: World, r: Run) {
    match r.phase
    case MarkProcessing => (id in w.dirs <==> leftover) && r.uploads == []
    case Fetching | MakingDir | RemovingDir => id in w.dirs <==> leftover || r.uploads != []
    case Saving => id in w.dirs
    case Converting => Holds(w.dirs, id, Downloaded(r.file))
    case DroppingSource => Holds(w.dirs, id, Downloaded(r.file)) && Holds(w.dirs, id, Converted(r.file))
    case Uploading | DroppingOutput => Holds(w.dirs, id, Converted(r.file))
    case MarkSucceeded | CallingWebhook | MarkFailed | Returned => id !in w.dirs
    case CleaningUp | Rejected => true
  }

  lemma StepKeepsDirKnown(leftover: bool, req: Request, w: World, r: Run, o: Outcome)
    requires DirKnown(leftover, req.requestId, w, r) && (InImage(r.phase) ==> Pending(req.products, r.outs))
    ensures DirKnown(leftover, req.requestId, Step(req, w, r, o).0, Step(req, w, r, o).1)
  {
    hide Seek, Pending, Combine;
  }

  /** What holds at every point of a call whose request has a record. */
  lemma {:induction false} CallKnown(req: Request, w: World, tape: nat -> Outcome, n: nat)
    requires req.requestId in w.records
    ensures var (v, r) := Perform(req, w, tape, n);
            && req.requestId in v.records && DirKnown(req.requestId in w.dirs, req.requestId, v, r)
            && Progress(req.products, r) && Ordered(req, v, r)
            && (InImage(r.phase) ==> Pending(req.products, r.outs))
            && (r.phase == MarkProcessing <==> n == 0)
  {
    hide Step, Progress, Ordered, Pending;
    RunsInOrder(req, w, tape, n);
    StatusesRise(req, w, tape, n);
    var (u, q) := Perform(req, w, tape, n);
    ProgressIsPending(req.products, q);
    if n == 0 {
      PerformNothing(req, w, tape);
    } else {
      CallKnown(req, w, tape, n - 1);
      var (v, r) := Perform(req, w, tape, n - 1);
      StepKeepsDirKnown(req.requestId in w.dirs, req, v, r, tape(n - 1));
      StepIsLocal(req, v, r, tape(n - 1));
      StepLeavesTheStart(req, v, r, tape(n - 1));
    }
  }

  lemma StepLeavesTheStart(req: Request, w: World, r: Run, o: Outcome)
    ensures Step(req, w, r, o).1.phase != MarkProcessing
  {
    hide Seek, Pending, Combine;
  }

  /** The call to the outside with which the try block ended in an error is the one at `m`. */
  ghost predicate ErrorAt(req: Request, w: World, tape: nat -> Outcome, m: nat) {
    InTry(PhaseAt(req, w, tape, m)) && PhaseAt(req, w, tape, m + 1) == CleaningUp
  }

  lemma StepErrs(leftover: bool, req: Request, w: World, r: Run, o: Outcome)
    requires req.requestId in w.records && DirKnown(leftover, req.requestId, w, r) && InTry(r.phase)
    requires InImage(r.phase) ==> Pending(req.products, r.outs)
    ensures var s := Step(req, w, r, o).1;
            && (s.phase == CleaningUp <==> o.Faulted? || (r.phase == RemovingDir && !leftover && r.uploads == []))
            && (s.phase != CleaningUp ==> InTry(s.phase) || (r.phase == CallingWebhook && s.phase == Returned))
  {
    hide Seek, Pending, Combine;
  }

  lemma UploadsAtEnd(products: seq<Product>, r: Run)
    requires Progress(products, r) && r.phase == RemovingDir
    ensures |r.uploads| == |Images(products)|
  {
    hide Pairs, DoneImages, Images, Aligned, Complete, Pending;
    DoneIsPrefix(products, r.outs);
    PairsAreDone(products, r.outs);
  }

  /**
   * An error is a failed call, or a request without images where no earlier call left a directory:
   * there is none to remove.
   */
  lemma ErrorsAre(req: Request, w: World, tape: nat -> Outcome, m: nat)
    requires req.requestId in w.records && InTry(PhaseAt(req, w, tape, m))
    ensures ErrorAt(req, w, tape, m) <==>
            || tape(m).Faulted?
            || (PhaseAt(req, w, tape, m) == RemovingDir && Images(req.products) == [] && req.requestId !in w.dirs)
  {
    hide Perform, Step, DirKnown, Progress, Ordered, Images;
    CallKnown(req, w, tape, m);
    PerformNext(req, w, tape, m);
    var (v, r) := Perform(req, w, tape, m);
    StepErrs(req.requestId in w.dirs, req, v, r, tape(m));
    if r.phase == RemovingDir {
      UploadsAtEnd(req.products, r);
    }
  }

  /** Whether the directory is there when the error handler starts. */
  predicate DirLeft(leftover: bool, r: Run, o: Outcome) {
    var before := leftover || r.uploads != [];
    match r.phase
    case MarkProcessing | Fetching => before
    case MakingDir => before || TookEffect(o)
    case Saving | Converting | DroppingSource | Uploading | DroppingOutput => true
    case RemovingDir => before && !TookEffect(o)
    case _ => false
  }

  /** The status the error handler finds. */
  function StatusAtError(phase: Phase, o: Outcome, first: Status): Status {
    match phase
    case MarkProcessing => if TookEffect(o) then Processing else first
    case MarkSucceeded => if TookEffect(o) then Succeeded else Processing
    case CallingWebhook => Succeeded
    case _ => Processing
  }

  lemma StepLeavesDir(leftover: bool, req: Request, w: World, r: Run, o: Outcome)
    requires req.requestId in w.records && DirKnown(leftover, req.requestId, w, r) && InTry(r.phase)
    requires InImage(r.phase) ==> Pending(req.products, r.outs)
    requires Step(req, w, r, o).1.phase == CleaningUp
    ensures req.requestId in Step(req, w, r, o).0.dirs <==> DirLeft(leftover, r, o)
  {
    hide Seek, Pending, Combine;
  }

  lemma StepLeavesStatus(req: Request, w: World, r: Run, o: Outcome, first: Status)
    requires req.requestId in w.records && Ordered(req, w, r) && InTry(r.phase)
    requires r.phase == MarkProcessing ==> w.records[req.requestId].status == first
    requires InImage(r.phase) ==> Pending(req.products, r.outs)
    requires Step(req, w, r, o).1.phase == CleaningUp
    ensures var v := Step(req, w, r, o).0;
            req.requestId in v.records && v.records[req.requestId].status == StatusAtError(r.phase, o, first)
  {
    hide Seek, Pending, Combine;
  }

  /** The error handler's two calls. */
  lemma HandlerSteps(req: Request, w: World, r: Run, o: Outcome, o': Outcome)
    requires r.phase == CleaningUp && req.requestId in w.records
    ensures var (w1, r1) := Step(req, w, r, o);
            var (w2, r2) := Step(req, w1, r1, o');
            var reached := req.requestId in w.dirs && o.Done?;
            && r1.phase == (if reached then MarkFailed else Rejected)
            && r2.phase == (if reached && o'.Done? then Returned else Rejected)
            && w2.records == if reached then SetStatus(w.records, req.requestId, Failed, o') else w.records
  {
  }

  lemma {:induction false} FinishedStays(req: Request, w: World, tape: nat -> Outcome, a: nat, b: nat)
    requires a <= b && Finished(Perform(req, w, tape, a).1)
    ensures Perform(req, w, tape, b) == Perform(req, w, tape, a)
    decreases b
  {
    hide Step;
    if a < b {
      FinishedStays(req, w, tape, a, b - 1);
      var (v, r) := Perform(req, w, tape, a);
      StepOfFinished(req, v, r, tape(b - 1));
    }
  }

  lemma StepOfFinished(req: Request, w: World, r: Run, o: Outcome)
    requires Finished(r)
    ensures Step(req, w, r, o) == (w, r)
  {
  }

  /**
   * The step at which the try block fails decides everything: the call returns or rejects, and the
   * status stays as the error found it or becomes Failed, as given here for every pattern of failures.
   */
  lemma ErrorDecidesStatus(req: Request, w: World, tape: nat -> Outcome, m: nat, n: nat)
    requires req.requestId in w.records && ErrorAt(req, w, tape, m)
    requires m < n && Finished(Perform(req, w, tape, n).1)
    ensures var (v, r) := Perform(req, w, tape, n);
            var failing := Perform(req, w, tape, m).1;
            var reached := DirLeft(req.requestId in w.dirs, failing, tape(m)) && tape(m + 1).Done?;
            && r.phase == (if reached && tape(m + 2).Done? then Returned else Rejected)
            && req.requestId in v.records
            && v.records[req.requestId].status ==
               if reached && TookEffect(tape(m + 2)) then Failed
               else StatusAtError(failing.phase, tape(m), w.records[req.requestId].status)
  {
    hide Perform, Step, DirKnown, Progress, Ordered, DirLeft, StatusAtError;
    CallKnown(req, w, tape, m);
    PerformNothing(req, w, tape);
    PerformNext(req, w, tape, m);
    PerformNext(req, w, tape, m + 1);
    PerformNext(req, w, tape, m + 2);
    var (v, r) := Perform(req, w, tape, m);
    StepLeavesDir(req.requestId in w.dirs, req, v, r, tape(m));
    StepLeavesStatus(req, v, r, tape(m), w.records[req.requestId].status);
    var (w1, r1) := Perform(req, w, tape, m + 1);
    HandlerSteps(req, w1, r1, tape(m + 1), tape(m + 2));
    if n < m + 3 {
      FinishedStays(req, w, tape, n, m + 3);
    } else {
      FinishedStays(req, w, tape, m + 3, n);
    }
  }

  lemma {:induction false} WithoutError(req: Request, w: World, tape: nat -> Outcome, n: nat)
    requires req.requestId in w.records && forall m | 0 <= m < n :: !ErrorAt(req, w, tape, m)
    ensures var (v, r) := Perform(req, w, tape, n);
            InTry(r.phase) || (r.phase == Returned && r.writes == [Processing, Succeeded])
  {
    hide Step, DirKnown, Progress, Pending;
    if n > 0 {
      WithoutError(req, w, tape, n - 1);
      CallKnown(req, w, tape, n - 1);
      var (v, r) := Perform(req, w, tape, n - 1);
      assert !ErrorAt(req, w, tape, n - 1);
      if InTry(r.phase) {
        StepErrs(req.requestId in w.dirs, req, v, r, tape(n - 1));
        WebhookWritesNothing(req, v, r, tape(n - 1));
      } else {
        FinishedStays(req, w, tape, n - 1, n);
      }
    }
  }

  lemma WebhookWritesNothing(req: Request, w: World, r: Run, o: Outcome)
    ensures r.phase == CallingWebhook ==> Step(req, w, r, o).1.writes == r.writes
  {
  }

  /** A call that finished met an error, or it returned with its request Succeeded. */
  lemma EveryCallEnds(req: Request, w: World, tape: nat -> Outcome, n: nat)
    requires req.requestId in w.records && Finished(Perform(req, w, tape, n).1)
    ensures var (v, r) := Perform(req, w, tape, n);
            || (exists m | 0 <= m < n :: ErrorAt(req, w, tape, m))
            || (r.phase == Returned && req.requestId in v.records
                && v.records[req.requestId].status == Succeeded && Succeeded in r.writes)
  {
    hide Perform, ErrorAt;
    if forall m | 0 <= m < n :: !ErrorAt(req, w, tape, m) {
      WithoutError(req, w, tape, n);
      StatusesRise(req, w, tape, n);
    }
  }

  // Every call ends.

  /** An upper bound on the awaited calls still to come. */
  function Remaining(products: seq<Product>, r: Run): int {
    var left := |Images(products)| - |r.uploads|;
    match r.phase
    case MarkProcessing => 7 * left + 6
    case Fetching => 7 * left + 5
    case MakingDir => 7 * left + 4
    case Saving => 7 * left + 3
    case Converting => 7 * left + 2
    case DroppingSource => 7 * left + 1
    case Uploading => 7 * left
    case DroppingOutput => 7 * left - 1
    case RemovingDir => 5
    case MarkSucceeded => 4
    case CallingWebhook => 3
    case CleaningUp => 2
    case MarkFailed => 1
    case _ => 0
  }

  lemma ImagesLeft(products: seq<Product>, r: Run)
    requires Progress(products, r)
    ensures |r.uploads| <= |Images(products)|
    ensures InImage(r.phase) ==> |r.uploads| < |Images(products)|
  {
    hide Pairs, DoneImages, Images, Aligned, Complete, Pending;
    NothingDone(products);
    DoneIsPrefix(products, r.outs);
    PairsAreDone(products, r.outs);
  }

  lemma StepUsesUp(req: Request, w: World, r: Run, o: Outcome)
    requires |r.uploads| <= |Images(req.products)|
    requires InImage(r.phase) ==> Pending(req.products, r.outs) && |r.uploads| < |Images(req.products)|
    requires !Finished(r)
    ensures Remaining(req.products, Step(req, w, r, o).1) < Remaining(req.products, r)
  {
    hide Seek, Pending, Combine, Images;
  }

  lemma {:induction false} RunsDown(req: Request, w: World, tape: nat -> Outcome, n: nat)
    ensures var r := Perform(req, w, tape, n).1;
            Finished(r) || Remaining(req.products, r) + n <= 7 * |Images(req.products)| + 6
  {
    hide Step, Progress, Pending, Images, Remaining;
    if n == 0 {
      BeginRemaining(req.products);
    } else {
      RunsDown(req, w, tape, n - 1);
      RunsInOrder(req, w, tape, n - 1);
      var (v, r) := Perform(req, w, tape, n - 1);
      ProgressIsPending(req.products, r);
      ImagesLeft(req.products, r);
      if Finished(r) {
        StepOfFinished(req, v, r, tape(n - 1));
      } else {
        StepUsesUp(req, v, r, tape(n - 1));
      }
    }
  }

  lemma BeginRemaining(products: seq<Product>)
    ensures Remaining(products, Begin()) == 7 * |Images(products)| + 6
  {
  }

  /** Whatever fails, a call settles within seven awaits per image and six more. */
  lemma EveryCallSettles(req: Request, w: World, tape: nat -> Outcome, n: nat)
    requires n >= 7 * |Images(req.products)| + 6
    ensures Finished(Perform(req, w, tape, n).1)
  {
    hide Perform, Images, Remaining, Progress;
    RunsDown(req, w, tape, n);
    RunsInOrder(req, w, tape, n);
    var r := Perform(req, w, tape, n).1;
    if !Finished(r) {
      UnfinishedRemains(req.products, r);
    }
  }

  lemma UnfinishedRemains(products: seq<Product>, r: Run)
    requires Progress(products, r) && !Finished(r)
    ensures Remaining(products, r) > 0
  {
    hide Images, Progress;
    ImagesLeft(products, r);
  }

  // Which status a call leaves when database and file system do not fail.

  /** Calls to the database and the file system, the others being to the network and the converter. */
  predicate StoreCall(phase: Phase) {
    phase !in {Fetching, Converting, Uploading, CallingWebhook}
  }

  ghost predicate StoresWork(req: Request, w: World, tape: nat -> Outcome, n: nat) {
    forall m {:trigger PhaseAt(req, w, tape, m)} | 0 <= m < n ::
      StoreCall(PhaseAt(req, w, tape, m)) ==> tape(m).Done?
  }

  /** Every download, conversion and upload of the call was done. */
  ghost predicate ImagesWork(req: Request, w: World, tape: nat -> Outcome, n: nat) {
    forall m {:trigger PhaseAt(req, w, tape, m)} | 0 <= m < n ::
      PhaseAt(req, w, tape, m) in {Fetching, Converting, Uploading} ==> tape(m).Done?
  }

  /** No directory from an earlier call, and none made in this one: no images, or the first download fails. */
  predicate Unstarted(req: Request, w: World, tape: nat -> Outcome) {
    req.requestId !in w.dirs && (Images(req.products) == [] || tape(1).Faulted?)
  }

  /** The first call puts the request at Processing and looks for its first image. */
  lemma FirstCall(req: Request, w: World, o: Outcome)
    requires req.requestId in w.records && o.Done?
    ensures var (v, r) := Step(req, w, Begin(), o);
            && v.dirs == w.dirs && req.requestId in v.records && v.records[req.requestId].status == Processing
            && r.uploads == [] && r.phase == if Images(req.products) == [] then RemovingDir else Fetching
  {
    hide Seek, Images;
    var (v, r) := Step(req, w, Begin(), o);
    BeginIsProgress(req.products);
    StepKeepsProgress(req, w, Begin(), o);
    DoneIsPrefix(req.products, r.outs);
    ImagesInOrder(req.products, r);
    assert r.attempted == [];
  }

  /** After the first download something was uploaded before the next one. */
  lemma {:induction false} OnlyFirstFetchIsBare(req: Request, w: World, tape: nat -> Outcome, n: nat)
    ensures var r := Perform(req, w, tape, n).1; r.phase == Fetching && r.uploads == [] ==> n == 1
    ensures n > 0 ==> PhaseAt(req, w, tape, n) != MarkProcessing
  {
    hide Step, Progress;
    if n > 0 {
      OnlyFirstFetchIsBare(req, w, tape, n - 1);
      RunsInOrder(req, w, tape, n - 1);
      var (v, r) := Perform(req, w, tape, n - 1);
      ProgressIsPending(req.products, r);
      StepToFetching(req, v, r, tape(n - 1));
    }
  }

  lemma StepToFetching(req: Request, w: World, r: Run, o: Outcome)
    requires InImage(r.phase) ==> Pending(req.products, r.outs)
    ensures var s := Step(req, w, r, o).1;
            s.phase == Fetching && s.uploads == [] ==> r.phase == MarkProcessing
    ensures Step(req, w, r, o).1.phase != MarkProcessing
  {
    hide Seek, Pending, Combine;
  }

  /** With working stores and a directory made, an error is recorded unless it is the webhook's. */
  lemma LaterErrorIsRecorded(req: Request, w: World, tape: nat -> Outcome, m: nat, n: nat)
    requires req.requestId in w.records && ErrorAt(req, w, tape, m) && m < n && Finished(Perform(req, w, tape, n).1)
    requires StoresWork(req, w, tape, n) && !Unstarted(req, w, tape)
    ensures var (v, r) := Perform(req, w, tape, n);
            && req.requestId in v.records
            && v.records[req.requestId].status ==
               if PhaseAt(req, w, tape, m) == CallingWebhook then Succeeded else Failed
    ensures PhaseAt(req, w, tape, m) in {Fetching, Converting, Uploading, CallingWebhook}
  {
    hide Perform, Step, Images, StatusAtError;
    ErrorsAre(req, w, tape, m);
    var failing := Perform(req, w, tape, m).1;
    OnlyFirstFetchIsBare(req, w, tape, m);
    ErrorDecidesStatus(req, w, tape, m, n);
    if failing.phase == CallingWebhook {
      WebhookLeavesSucceeded(tape(m), w.records[req.requestId].status);
    } else {
      assert DirLeft(req.requestId in w.dirs, failing, tape(m));
      HandlerWorks(req, w, tape, m, n);
    }
  }

  lemma WebhookLeavesSucceeded(o: Outcome, first: Status)
    ensures StatusAtError(CallingWebhook, o, first) == Succeeded
  {
  }

  lemma HandlerWorks(req: Request, w: World, tape: nat -> Outcome, m: nat, n: nat)
    requires req.requestId in w.records && ErrorAt(req, w, tape, m) && m < n && Finished(Perform(req, w, tape, n).1)
    requires StoresWork(req, w, tape, n) && DirLeft(req.requestId in w.dirs, Perform(req, w, tape, m).1, tape(m))
    ensures tape(m + 1).Done? && tape(m + 2).Done?
  {
    hide Perform, Step, DirKnown, Progress, Ordered, DirLeft;
    CallKnown(req, w, tape, m);
    PerformNext(req, w, tape, m);
    PerformNext(req, w, tape, m + 1);
    var (v, r) := Perform(req, w, tape, m);
    StepLeavesDir(req.requestId in w.dirs, req, v, r, tape(m));
    StepIsLocal(req, v, r, tape(m));
    var (w1, r1) := Perform(req, w, tape, m + 1);
    assert StoreCall(r1.phase) && m + 1 < n;
    HandlerSteps(req, w1, r1, tape(m + 1), tape(m + 2));
    assert StoreCall(PhaseAt(req, w, tape, m + 2)) && m + 2 < n;
  }

  /** Without a directory the handler rejects, and the status stays at Processing. */
  lemma FirstCallsFail(req: Request, w: World, tape: nat -> Outcome, n: nat)
    requires req.requestId in w.records && Finished(Perform(req, w, tape, n).1) && StoresWork(req, w, tape, n)
    requires Unstarted(req, w, tape)
    ensures var (v, r) := Perform(req, w, tape, n);
            && req.requestId in v.records && v.records[req.requestId].status == Processing
            && r.phase == Rejected && Succeeded !in r.writes
  {
    hide Perform, Step, Images, Progress, Ordered, DirKnown;
    AfterFirstCall(req, w, tape, n);
    ErrorsAre(req, w, tape, 1);
    assert ErrorAt(req, w, tape, 1);
    ErrorDecidesStatus(req, w, tape, 1, n);
    SucceededIsFinal(req, w, tape, n);
  }

  lemma AfterFirstCall(req: Request, w: World, tape: nat -> Outcome, n: nat)
    requires req.requestId in w.records && Finished(Perform(req, w, tape, n).1) && StoresWork(req, w, tape, n)
    ensures n > 1
    ensures var r := Perform(req, w, tape, 1).1;
            r.phase == (if Images(req.products) == [] then RemovingDir else Fetching) && r.uploads == []
  {
    hide Perform, Step, Images;
    PerformNothing(req, w, tape);
    PerformNext(req, w, tape, 0);
    assert StoreCall(PhaseAt(req, w, tape, 0)) && n > 0;
    FirstCall(req, w, tape(0));
  }

  lemma SucceededIsFinal(req: Request, w: World, tape: nat -> Outcome, n: nat)
    ensures var (v, r) := Perform(req, w, tape, n);
            Succeeded in r.writes && Finished(r) ==>
              req.requestId in v.records && v.records[req.requestId].status == Succeeded
  {
    hide Perform;
    StatusesRise(req, w, tape, n);
  }

  lemma {:induction false} NoReturnToTry(req: Request, w: World, tape: nat -> Outcome, a: nat, b: nat)
    requires a <= b && !InTry(PhaseAt(req, w, tape, a))
    ensures !InTry(PhaseAt(req, w, tape, b))
    decreases b
  {
    hide Step;
    if a < b {
      NoReturnToTry(req, w, tape, a, b - 1);
      var (v, r) := Perform(req, w, tape, b - 1);
      StepStaysOut(req, v, r, tape(b - 1));
    }
  }

  lemma StepStaysOut(req: Request, w: World, r: Run, o: Outcome)
    requires !InTry(r.phase)
    ensures !InTry(Step(req, w, r, o).1.phase)
  {
  }

  /** A call has at most one error, and a failed image call is one. */
  lemma ErrorDecidesImages(req: Request, w: World, tape: nat -> Outcome, m: nat, n: nat)
    requires req.requestId in w.records && ErrorAt(req, w, tape, m) && m < n
    requires PhaseAt(req, w, tape, m) in {Fetching, Converting, Uploading, CallingWebhook}
    ensures ImagesWork(req, w, tape, n) <==> PhaseAt(req, w, tape, m) == CallingWebhook
  {
    hide Perform, Images;
    ErrorsAre(req, w, tape, m);
    if PhaseAt(req, w, tape, m) == CallingWebhook {
      forall k | 0 <= k < n && PhaseAt(req, w, tape, k) in {Fetching, Converting, Uploading}
        ensures tape(k).Done?
      {
        ErrorsAre(req, w, tape, k);
        if k < m && tape(k).Faulted? {
          NoReturnToTry(req, w, tape, k + 1, m);
        } else if k > m {
          NoReturnToTry(req, w, tape, m + 1, k);
        }
      }
    }
  }

  lemma NoErrorNoFault(req: Request, w: World, tape: nat -> Outcome, n: nat)
    requires req.requestId in w.records && forall m | 0 <= m < n :: !ErrorAt(req, w, tape, m)
    ensures ImagesWork(req, w, tape, n)
  {
    hide Perform, Images, ErrorAt;
    forall k | 0 <= k < n && PhaseAt(req, w, tape, k) in {Fetching, Converting, Uploading}
      ensures tape(k).Done?
    {
      ErrorsAre(req, w, tape, k);
    }
  }

  /**
   * The status every call leaves when database and file system do not fail. Processing: there never
   * was a directory. Succeeded: every image was done, webhook or not. Failed: the rest.
   */
  lemma StatusAfterCall(req: Request, w: World, tape: nat -> Outcome, n: nat)
    requires req.requestId in w.records && Finished(Perform(req, w, tape, n).1) && StoresWork(req, w, tape, n)
    ensures var (v, r) := Perform(req, w, tape, n);
            var unstarted := Unstarted(req, w, tape);
            && req.requestId in v.records
            && var status := v.records[req.requestId].status;
               && (status == Processing <==> unstarted)
               && (status == Succeeded <==> !unstarted && ImagesWork(req, w, tape, n))
               && (status == Failed <==> !unstarted && !ImagesWork(req, w, tape, n))
  {
    hide Perform, Step, Images, ErrorAt, StoresWork, ImagesWork;
    if Unstarted(req, w, tape) {
      FirstCallsFail(req, w, tape, n);
    } else {
      EveryCallEnds(req, w, tape, n);
      if m :| 0 <= m < n && ErrorAt(req, w, tape, m) {
        LaterErrorIsRecorded(req, w, tape, m, n);
        ErrorDecidesImages(req, w, tape, m, n);
      } else {
        NoErrorNoFault(req, w, tape, n);
      }
    }
  }
}
