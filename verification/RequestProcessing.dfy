/** The processor and the stores it updates in place, as objects. */
module RequestProcessing {
  import opened Wrappers
  import opened Effects
  import opened ImageProcessor

  /** Stored requests; every method is one awaited database call ending with `o`. */
  class RequestRepository {
    var records: map<string, Record>

    constructor ()
      ensures records == map[]
    {
      records := map[];
    }

    /** Request ids are unique. */
    method CreateRequest(requestId: string, record: Record, o: Outcome) returns (threw: bool)
      modifies this
      ensures records == Created(old(records), requestId, record, o)
      ensures forall id | id in old(records) :: id in records && records[id] == old(records)[id]
      ensures records.Keys - old(records).Keys ==
              if requestId !in old(records) && TookEffect(o) then {requestId} else {}
      ensures requestId !in old(records) && TookEffect(o) ==> records[requestId] == record
      ensures threw <==> requestId in old(records) || o.Faulted?
    {
      if requestId !in records && TookEffect(o) {
        records := records[requestId := record];
        return o.Faulted?;
      }
      return true;
    }

    method UpdateStatus(requestId: string, status: Status, o: Outcome) returns (threw: bool)
      modifies this
      ensures records == SetStatus(old(records), requestId, status, o)
      ensures records.Keys == old(records).Keys
      ensures forall id | id in records ::
                && (id != requestId || !TookEffect(o) ==> records[id] == old(records)[id])
                && (id == requestId && TookEffect(o) ==> records[id].status == status)
                && records[id].webhookUrl == old(records)[id].webhookUrl
                && records[id].products == old(records)[id].products
      ensures threw == !Updated(old(records), requestId, o)
    {
      if requestId in records && TookEffect(o) {
        records := records[requestId := records[requestId].(status := status)];
      }
      return requestId !in records || o.Faulted?;
    }

    /** Sets the fields that `update` gives, all at once. */
    method UpdateRequest(requestId: string, update: RecordUpdate, o: Outcome) returns (threw: bool)
      modifies this
      ensures records == SetFields(old(records), requestId, update, o)
      ensures records.Keys == old(records).Keys
      ensures forall id | id in records && (id != requestId || !TookEffect(o)) :: records[id] == old(records)[id]
      ensures requestId in records && TookEffect(o) ==>
                var before, after := old(records)[requestId], records[requestId];
                && (update.status.Some? ==> after.status == update.status.value)
                && (update.webhookUrl.Some? ==> after.webhookUrl == update.webhookUrl.value)
                && (update.products.Some? ==> after.products == update.products.value)
                && (update.status.None? ==> after.status == before.status)
                && (update.webhookUrl.None? ==> after.webhookUrl == before.webhookUrl)
                && (update.products.None? ==> after.products == before.products)
      ensures threw == !Updated(old(records), requestId, o)
    {
      if requestId in records && TookEffect(o) {
        var record := records[requestId];
        if update.status.Some? {
          record := record.(status := update.status.value);
        }
        if update.webhookUrl.Some? {
          record := record.(webhookUrl := update.webhookUrl.value);
        }
        if update.products.Some? {
          record := record.(products := update.products.value);
        }
        records := records[requestId := record];
      }
      return requestId !in records || o.Faulted?;
    }

    method GetStatus(requestId: string, o: Outcome) returns (status: Option<Status>)
      ensures status == StatusOf(records, requestId, o)
      ensures status.Some? <==> requestId in records && o.Done?
      ensures status.Some? ==> status.value == records[requestId].status
    {
      if o.Faulted? || requestId !in records {
        return None;
      }
      return Some(records[requestId].status);
    }
  }

  /** Other requests' directories are as they were. */
  ghost predicate OthersKept(before: Dirs, after: Dirs, id: string) {
    forall i | i != id :: (i in after <==> i in before) && (i in before ==> i in after && after[i] == before[i])
  }

  /** The temporary directories, by request id. */
  class TempStorage {
    var dirs: Dirs

    method Mkdir(id: string, o: Outcome) returns (threw: bool)
      modifies this
      ensures dirs == MakeDir(old(dirs), id, o) && threw == o.Faulted?
      ensures OthersKept(old(dirs), dirs, id)
      ensures if id in old(dirs) then id in dirs && dirs[id] == old(dirs)[id]
              else (id in dirs <==> TookEffect(o)) && (id in dirs ==> dirs[id] == {})
    {
      if TookEffect(o) && id !in dirs {
        dirs := dirs[id := {}];
      }
      return o.Faulted?;
    }

    method WriteFile(id: string, f: TempFile, o: Outcome) returns (threw: bool)
      modifies this
      ensures dirs == AddFile(old(dirs), id, f, o) && (threw <==> id !in old(dirs) || o.Faulted?)
      ensures OthersKept(old(dirs), dirs, id) && (id in dirs <==> id in old(dirs))
      ensures id in dirs ==> dirs[id] == old(dirs)[id] + if TookEffect(o) then {f} else {}
    {
      if id !in dirs {
        return true;
      }
      if TookEffect(o) {
        dirs := dirs[id := dirs[id] + {f}];
      }
      return o.Faulted?;
    }

    method Unlink(id: string, f: TempFile, o: Outcome) returns (threw: bool)
      modifies this
      ensures dirs == DropFile(old(dirs), id, f, o) && (threw <==> !Holds(old(dirs), id, f) || o.Faulted?)
      ensures OthersKept(old(dirs), dirs, id) && (id in dirs <==> id in old(dirs))
      ensures id in dirs ==> dirs[id] == old(dirs)[id] - if TookEffect(o) then {f} else {}
    {
      threw := id !in dirs || f !in dirs[id] || o.Faulted?;
      if TookEffect(o) && id in dirs {
        dirs := dirs[id := dirs[id] - {f}];
      }
    }

    /** Reads the downloaded file and writes the converted one. */
    method Convert(id: string, file: string, o: Outcome) returns (threw: bool)
      modifies this
      ensures dirs == ConvertFile(old(dirs), id, file, o)
      ensures threw <==> !Holds(old(dirs), id, Downloaded(file)) || o.Faulted?
      ensures OthersKept(old(dirs), dirs, id) && (id in dirs <==> id in old(dirs))
      ensures id in dirs ==>
                dirs[id] == old(dirs)[id] +
                            if TookEffect(o) && Downloaded(file) in old(dirs)[id] then {Converted(file)} else {}
    {
      if id !in dirs || Downloaded(file) !in dirs[id] {
        return true;
      }
      if TookEffect(o) {
        dirs := dirs[id := dirs[id] + {Converted(file)}];
      }
      return o.Faulted?;
    }

    method ReadFile(id: string, f: TempFile) returns (threw: bool)
      ensures threw <==> !Holds(dirs, id, f)
    {
      return id !in dirs || f !in dirs[id];
    }

    method Rmdir(id: string, o: Outcome) returns (threw: bool)
      modifies this
      ensures dirs == DropDir(old(dirs), id, o) && (threw <==> id !in old(dirs) || o.Faulted?)
      ensures OthersKept(old(dirs), dirs, id)
      ensures if TookEffect(o) then id !in dirs
              else (id in dirs <==> id in old(dirs)) && (id in dirs ==> dirs[id] == old(dirs)[id])
    {
      threw := id !in dirs || o.Faulted?;
      if TookEffect(o) {
        dirs := dirs - {id};
      }
    }
  }

  /** The outside: what was requested of it, in order. */
  class HttpClient {
    var fetched: seq<string>
    var uploaded: seq<(string, string, string)> // product, image URL and file
    var posted: seq<(string, string)>           // webhook URL and document

    constructor ()
      ensures fetched == [] && uploaded == [] && posted == []
    {
      fetched, uploaded, posted := [], [], [];
    }

    /** `file` is the name given to what comes back. */
    method Get(url: string, o: Outcome) returns (threw: bool, file: string)
      modifies this`fetched
      ensures fetched == old(fetched) + [url]
      ensures threw == o.Faulted? && (!threw ==> o == Done(file))
    {
      fetched := fetched + [url];
      if o.Faulted? {
        return true, "";
      }
      return false, o.value;
    }

    method Put(product: string, imageUrl: string, file: string, o: Outcome) returns (threw: bool, url: string)
      modifies this`uploaded
      ensures uploaded == old(uploaded) + [(product, imageUrl, file)]
      ensures threw == o.Faulted? && (!threw ==> o == Done(url))
    {
      uploaded := uploaded + [(product, imageUrl, file)];
      if o.Faulted? {
        return true, "";
      }
      return false, o.value;
    }

    method Post(url: string, body: string, o: Outcome) returns (threw: bool)
      modifies this`posted
      ensures posted == old(posted) + [(url, body)] && threw == o.Faulted?
    {
      posted := posted + [(url, body)];
      return o.Faulted?;
    }
  }

  class Processor {
    const request: RequestRepository
    const disk: TempStorage
    const http: HttpClient

    constructor (request: RequestRepository, disk: TempStorage, http: HttpClient)
      ensures this.request == request && this.disk == disk && this.http == http
    {
      this.request := request;
      this.disk := disk;
      this.http := http;
    }

    ghost function Current(): World
      reads request, disk
    {
      World(request.records, disk.dirs)
    }

    /** After `n` awaited calls of a run begun in `start`, the stores and the run are these. */
    ghost predicate Reached(req: Request, start: World, tape: nat -> Outcome, n: nat, r: Run)
      reads request, disk
    {
      Perform(req, start, tape, n) == (Current(), r)
    }

    method DownloadImage(req: Request, url: string, tape: nat -> Outcome, calls: nat, ghost start: World, ghost r: Run)
      returns (threw: bool, file: string, calls': nat, ghost r': Run)
      requires Reached(req, start, tape, calls, r) && r.phase == Fetching && Pending(req.products, r.outs)
      requires url == CurrentUrl(req.products, r.outs)
      modifies disk, http`fetched
      ensures http.fetched == old(http.fetched) + [url] && r'.attempted == r.attempted + [url]
      ensures Reached(req, start, tape, calls', r') && r'.outs == r.outs
      ensures r'.phase == if threw then CleaningUp else Converting
      ensures !threw ==> r'.file == file && tape(calls) == Done(file) && calls' == calls + 3
    {
      hide Perform, Settle, Combine, OthersKept, MakeDir, AddFile, DropFile, ConvertFile;
      PerformNext(req, start, tape, calls);
      r' := Step(req, Current(), r, tape(calls)).1;
      threw, file := http.Get(url, tape(calls));
      if threw {
        return true, "", calls + 1, r';
      }
      PerformNext(req, start, tape, calls + 1);
      r' := Step(req, Current(), r', tape(calls + 1)).1;
      threw := disk.Mkdir(req.requestId, tape(calls + 1));
      if threw {
        return true, file, calls + 2, r';
      }
      PerformNext(req, start, tape, calls + 2);
      r' := Step(req, Current(), r', tape(calls + 2)).1;
      threw := disk.WriteFile(req.requestId, Downloaded(file), tape(calls + 2));
      calls' := calls + 3;
    }

    method ProcessImage(req: Request, productName: string, url: string, tape: nat -> Outcome, calls: nat,
                        ghost start: World, ghost r: Run)
      returns (threw: bool, outputUrl: string, calls': nat, ghost r': Run)
      requires Reached(req, start, tape, calls, r) && r.phase == Fetching && Pending(req.products, r.outs)
      requires url == CurrentUrl(req.products, r.outs)
      modifies disk, http`fetched, http`uploaded
      ensures http.fetched == old(http.fetched) + [url] && r'.attempted == r.attempted + [url]
      ensures Reached(req, start, tape, calls', r')
      ensures threw ==> r'.phase == CleaningUp
      ensures !threw ==> calls' == calls + 7 && tape(calls + 5) == Done(outputUrl)
      ensures !threw ==> tape(calls).Done? &&
                         http.uploaded == old(http.uploaded) + [(productName, url, tape(calls).value)]
      ensures !threw ==> exists s: Run ::
                s.outs == Front(r.outs) + [Last(r.outs) + [outputUrl]] && r' == Settle(req.products, s)
    {
      hide Perform, Settle, Combine, Pending, Step, Reached;
      var file, n;
      threw, file, n, r' := DownloadImage(req, url, tape, calls, start, r);
      if threw {
        return true, "", n, r';
      }
      threw, n, r' := ConvertImage(req, tape, n, start, r', file);
      if threw {
        return true, "", n, r';
      }
      threw, outputUrl, calls', r' := UploadImage(req, productName, url, tape, n, start, r', file);
    }

    /** Converts the download and drops it. */
    method ConvertImage(req: Request, tape: nat -> Outcome, calls: nat, ghost start: World, ghost r: Run, file: string)
      returns (threw: bool, calls': nat, ghost r': Run)
      requires Reached(req, start, tape, calls, r) && r.phase == Converting && Pending(req.products, r.outs)
      requires r.file == file
      modifies disk
      ensures Reached(req, start, tape, calls', r') && r'.outs == r.outs && r'.file == file
      ensures r'.attempted == r.attempted
      ensures r'.phase == if threw then CleaningUp else Uploading
      ensures !threw ==> calls' == calls + 2
    {
      hide Perform, Settle, Combine, Pending, OthersKept, MakeDir, AddFile, DropFile, ConvertFile;
      PerformNext(req, start, tape, calls);
      r' := Step(req, Current(), r, tape(calls)).1;
      threw := disk.Convert(req.requestId, file, tape(calls));
      if threw {
        return true, calls + 1, r';
      }
      PerformNext(req, start, tape, calls + 1);
      r' := Step(req, Current(), r', tape(calls + 1)).1;
      threw := disk.Unlink(req.requestId, Downloaded(file), tape(calls + 1));
      calls' := calls + 2;
    }

    method UploadImage(req: Request, productName: string, imageUrl: string, tape: nat -> Outcome, calls: nat,
                       ghost start: World, ghost r: Run, file: string)
      returns (threw: bool, url: string, calls': nat, ghost r': Run)
      requires Reached(req, start, tape, calls, r) && r.phase == Uploading && Pending(req.products, r.outs)
      requires r.file == file
      modifies disk, http`uploaded
      ensures Reached(req, start, tape, calls', r') && r'.attempted == r.attempted
      ensures threw ==> r'.phase == CleaningUp
      ensures !threw ==> calls' == calls + 2 && tape(calls) == Done(url)
      ensures !threw ==> http.uploaded == old(http.uploaded) + [(productName, imageUrl, file)]
      ensures !threw ==> exists s: Run ::
                s.outs == Front(r.outs) + [Last(r.outs) + [url]] && r' == Settle(req.products, s)
    {
      hide Perform, Settle, Combine, OthersKept, MakeDir, AddFile, DropFile, ConvertFile;
      PerformNext(req, start, tape, calls);
      r' := Step(req, Current(), r, tape(calls)).1;
      threw := disk.ReadFile(req.requestId, Converted(file));
      if threw {
        return true, "", calls + 1, r';
      }
      threw, url := http.Put(productName, imageUrl, file, tape(calls));
      if threw {
        return true, "", calls + 1, r';
      }
      ghost var before := r';
      PerformNext(req, start, tape, calls + 1);
      r' := Step(req, Current(), before, tape(calls + 1)).1;
      threw := disk.Unlink(req.requestId, Converted(file), tape(calls + 1));
      calls' := calls + 2;
      if !threw {
        ghost var s := before.(outs := Front(r.outs) + [Last(r.outs) + [url]],
                               uploads := before.uploads + [(CurrentUrl(req.products, r.outs), url)]);
        assert r' == Settle(req.products, s);
        SettlePhase(req.products, s);
      }
    }

    /** The nested loops over products and their images. */
    method ProcessProducts(req: Request, tape: nat -> Outcome, ghost start: World, ghost first: Run)
      returns (threw: bool, outs: seq<seq<string>>, calls: nat, ghost r: Run)
      requires Reached(req, start, tape, 1, first) && first == Settle(req.products, first.(outs := []))
      requires first.attempted == []
      modifies disk, http`fetched, http`uploaded
      ensures Reached(req, start, tape, calls, r)
      ensures http.fetched == old(http.fetched) + r.attempted
      ensures r.phase == if threw then CleaningUp else RemovingDir
      ensures !threw ==> r.outs == outs
    {
      hide Perform, Step, Reached;
      var products := req.products;
      outs, calls, r := [], 1, first;
      for i := 0 to |products|
        invariant Reached(req, start, tape, calls, r)
        invariant http.fetched == old(http.fetched) + r.attempted
        invariant |outs| == i && !Pending(products, outs)
        invariant r == Settle(products, r.(outs := outs))
      {
        assert Seek(products, outs) == Seek(products, outs + [[]]);
        outs := outs + [[]];
        var urls := products[i].inputImageUrls;
        for j := 0 to |urls|
          invariant Reached(req, start, tape, calls, r)
          invariant http.fetched == old(http.fetched) + r.attempted
          invariant |outs| == i + 1 && |Last(outs)| == j
          invariant r == Settle(products, r.(outs := outs))
        {
          assert Pending(products, outs);
          var fileUrl;
          threw, fileUrl, calls, r := ProcessImage(req, products[i].name, urls[j], tape, calls, start, r);
          if threw {
            return;
          }
          outs := Front(outs) + [Last(outs) + [fileUrl]];
          SettleAgain(products, outs, r);
        }
      }
      threw := false;
    }

    lemma SettleAgain(products: seq<Product>, outs: seq<seq<string>>, r: Run)
      requires exists s: Run :: s.outs == outs && r == Settle(products, s)
      ensures r == Settle(products, r.(outs := outs))
    {
      hide Seek, Pending;
    }

    method HandleError(req: Request, tape: nat -> Outcome, calls: nat, ghost start: World, ghost r: Run)
      returns (rejected: bool, calls': nat, ghost r': Run)
      requires Reached(req, start, tape, calls, r) && r.phase == CleaningUp
      modifies request, disk
      ensures Reached(req, start, tape, calls', r')
      ensures r'.phase == if rejected then Rejected else Returned
      ensures r.writes <= r'.writes && (!rejected ==> Failed in r'.writes)
      ensures r'.attempted == r.attempted
      ensures req.requestId !in old(disk.dirs) ==> rejected && request.records == old(request.records)
    {
      hide Perform, Settle, Combine, Pending, OthersKept, MakeDir, AddFile, DropFile, ConvertFile;
      PerformNext(req, start, tape, calls);
      r' := Step(req, Current(), r, tape(calls)).1;
      rejected := disk.Rmdir(req.requestId, tape(calls));
      if rejected {
        return true, calls + 1, r';
      }
      PerformNext(req, start, tape, calls + 1);
      r' := Step(req, Current(), r', tape(calls + 1)).1;
      rejected := request.UpdateStatus(req.requestId, Failed, tape(calls + 1));
      calls' := calls + 2;
    }

    /** The end of the try block, after the loops; `sent` is the document posted to the webhook. */
    method Conclude(req: Request, outs: seq<seq<string>>, tape: nat -> Outcome, calls: nat,
                    ghost start: World, ghost r: Run)
      returns (threw: bool, sent: Option<string>, calls': nat, ghost r': Run)
      requires Reached(req, start, tape, calls, r) && r.phase == RemovingDir && r.outs == outs
      modifies request, disk, http`posted
      ensures Reached(req, start, tape, calls', r') && r'.attempted == r.attempted
      ensures http.posted == old(http.posted) + if sent.Some? then [(req.webhookUrl, sent.value)] else []
      ensures r'.phase == if threw then CleaningUp else Returned
      ensures sent.Some? ==> IsDocument(req, sent.value) && req.requestId !in disk.dirs && Succeeded in r'.writes
      ensures !threw ==> sent.Some?
    {
      hide Perform, Settle, Combine, Pending, CsvWriter.Document, OthersKept;
      PerformNext(req, start, tape, calls);
      r' := Step(req, Current(), r, tape(calls)).1;
      threw := disk.Rmdir(req.requestId, tape(calls));
      if threw {
        return true, None, calls + 1, r';
      }
      PerformNext(req, start, tape, calls + 1);
      r' := Step(req, Current(), r', tape(calls + 1)).1;
      var products := Combine(req.products, outs);
      threw := request.UpdateRequest(req.requestId, SuccessUpdate(products), tape(calls + 1));
      if threw {
        return true, None, calls + 2, r';
      }
      var csv := CsvWriter.BuildCSV(products);
      PerformNext(req, start, tape, calls + 2);
      r' := Step(req, Current(), r', tape(calls + 2)).1;
      threw := http.Post(req.webhookUrl, csv, tape(calls + 2));
      sent, calls' := Some(csv), calls + 3;
    }

    /** The record has Succeeded, and the document is that of its products. */
    ghost predicate IsDocument(req: Request, csv: string)
      reads request
    {
      && req.requestId in request.records && request.records[req.requestId].status == Succeeded
      && csv == CsvWriter.Document(request.records[req.requestId].products)
    }

    method TryProcess(req: Request, tape: nat -> Outcome)
      returns (threw: bool, sent: Option<string>, calls: nat, ghost r: Run)
      modifies request, disk, http
      ensures Reached(req, old(Current()), tape, calls, r)
      ensures http.fetched == old(http.fetched) + r.attempted
      ensures http.posted == old(http.posted) + if sent.Some? then [(req.webhookUrl, sent.value)] else []
      ensures r.phase == if threw then CleaningUp else Returned
      ensures sent.Some? ==> IsDocument(req, sent.value) && req.requestId !in disk.dirs && Succeeded in r.writes
      ensures !threw ==> sent.Some?
    {
      hide Perform, Combine, Pending, Seek, IsDocument;
      ghost var start := Current();
      PerformNothing(req, start, tape);
      PerformNext(req, start, tape, 0);
      r := Step(req, start, Begin(), tape(0)).1;
      threw := request.UpdateStatus(req.requestId, Processing, tape(0));
      if threw {
        return true, None, 1, r;
      }
      SettleAgain(req.products, [], r);
      var outs;
      threw, outs, calls, r := ProcessProducts(req, tape, start, r);
      if threw {
        return true, None, calls, r;
      }
      threw, sent, calls, r := Conclude(req, outs, tape, calls, start, r);
    }

    lemma OutputsAreAnswers(req: Request, start: World, tape: nat -> Outcome, n: nat)
      requires Succeeded in Perform(req, start, tape, n).1.writes
      ensures var w := Perform(req, start, tape, n).0;
              req.requestId in w.records && AnswersOf(tape, Outputs(w.records[req.requestId].products))
    {
      hide Perform, Images, Pairs, AnswersOf, Outputs;
      SuccessIsAligned(req, start, tape, n);
    }

    /**
     * The call settles, with the stores and the way it settles those of the step-by-step run. The
     * webhook gets a document only after Succeeded was stored, and it is that of the stored products,
     * whose outputs are what the uploads answered; a call that returns without having written Failed
     * has sent it.
     */
    method Process(req: Request, tape: nat -> Outcome) returns (rejected: bool, sent: Option<string>, calls: nat)
      modifies request, disk, http
      ensures var (w, r) := Perform(req, World(old(request.records), old(disk.dirs)), tape, calls);
              && w == World(request.records, disk.dirs)
              && r.phase == (if rejected then Rejected else Returned)
              && (sent.Some? ==> IsDocument(req, sent.value))
              && (sent.Some? ==> AnswersOf(tape, Outputs(request.records[req.requestId].products)))
              && (!rejected && Failed !in r.writes ==> sent.Some?)
              && http.fetched == old(http.fetched) + r.attempted
      ensures http.posted == old(http.posted) + if sent.Some? then [(req.webhookUrl, sent.value)] else []
    {
      hide Perform, CsvWriter.Document, AnswersOf, Outputs;
      ghost var start, r := Current(), Begin();
      var threw;
      threw, sent, calls, r := TryProcess(req, tape);
      rejected := false;
      if threw {
        rejected, calls, r := HandleError(req, tape, calls, start, r);
      }
      if sent.Some? {
        OutputsAreAnswers(req, start, tape, calls);
      }
    }
  }
}
