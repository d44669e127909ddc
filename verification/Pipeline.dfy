/** From the uploaded text to the document the webhook gets. */
module Pipeline {
  import opened Wrappers
  import opened Effects
  import opened CsvReader
  import opened CsvWriter
  import Text
  import CsvMeaning
  import P = ImageProcessor

  lemma {:induction false} OutputsAreUploads(products: seq<Product>, outs: seq<seq<string>>, i: nat, u: string)
    requires P.Aligned(products, outs) && i < |outs| && u in outs[i]
    ensures exists pair | pair in P.Pairs(products, outs) :: pair.1 == u
    decreases |outs|
  {
    var front, last := P.Front(outs), P.Last(outs);
    if i < |front| {
      OutputsAreUploads(products, front, i, u);
      var pair :| pair in P.Pairs(products, front) && pair.1 == u;
      assert pair in P.Pairs(products, outs);
    } else {
      var k :| 0 <= k < |last| && last[k] == u;
      var zip := P.Zip(products[|outs| - 1].inputImageUrls, last);
      assert zip[k] in zip && zip[k].1 == u;
      assert zip[k] in P.Pairs(products, outs);
    }
  }

  lemma StoredUrlsAreSafe(products: seq<Product>, outs: seq<seq<string>>)
    requires P.Aligned(products, outs) && P.Complete(products, outs)
    requires forall p | p in products :: SafeUrls(p.inputImageUrls)
    requires forall pair | pair in P.Pairs(products, outs) :: SafeUrl(pair.1)
    ensures forall s | s in P.Combine(products, outs) :: SafeUrls(s.inputImageUrls) && SafeUrls(s.outputImageUrls)
  {
    hide SafeUrl, P.Pairs;
    var stored := P.Combine(products, outs);
    forall s | s in stored ensures SafeUrls(s.inputImageUrls) && SafeUrls(s.outputImageUrls) {
      var i :| 0 <= i < |stored| && stored[i] == s;
      assert products[i] in products;
      forall u | u in outs[i] ensures SafeUrl(u) {
        OutputsAreUploads(products, outs, i, u);
      }
    }
  }

  /** What the upload of image `k` answers. */
  function UploadAnswer(tape: nat -> Outcome, k: nat): Outcome {
    tape(7 * k + 6)
  }

  /** The uploads answer with safe URLs. */
  ghost predicate UploadsSafe(req: P.Request, tape: nat -> Outcome) {
    forall k | 0 <= k < |P.Images(req.products)| ::
      UploadAnswer(tape, k).Done? ==> SafeUrl(UploadAnswer(tape, k).value)
  }

  ghost predicate Succeeds(req: P.Request, w: P.World, tape: nat -> Outcome, n: nat) {
    P.Succeeded in P.Perform(req, w, tape, n).1.writes
  }

  /** The products stored for the request after `n` awaited calls. */
  function StoredProducts(req: P.Request, w: P.World, tape: nat -> Outcome, n: nat): seq<OutputProduct> {
    var records := P.Perform(req, w, tape, n).0.records;
    if req.requestId in records then records[req.requestId].products else []
  }

  lemma StoredAre(req: P.Request, w: P.World, tape: nat -> Outcome, n: nat)
    requires Succeeds(req, w, tape, n)
    ensures var r := P.Perform(req, w, tape, n).1;
            && P.Complete(req.products, r.outs) && P.Aligned(req.products, r.outs)
            && r.uploads == P.Pairs(req.products, r.outs)
            && StoredProducts(req, w, tape, n) == P.Combine(req.products, r.outs)
    ensures var outputs := P.Outputs(StoredProducts(req, w, tape, n));
            |outputs| == |P.Images(req.products)| && P.AnswersOf(tape, outputs)
  {
    hide P.Perform, P.Pairs, P.Combine, P.Complete, P.Images, P.Outputs, P.AnswersOf;
    P.SuccessIsAligned(req, w, tape, n);
    P.RunsInOrder(req, w, tape, n);
  }

  lemma UploadedAreSafe(req: P.Request, w: P.World, tape: nat -> Outcome, n: nat)
    requires UploadsSafe(req, tape)
    ensures forall pair | pair in P.Perform(req, w, tape, n).1.uploads :: SafeUrl(pair.1)
  {
    hide P.Perform, P.Images, SafeUrl;
    P.UploadsAreAnswers(req, w, tape, n);
    var uploads := P.Perform(req, w, tape, n).1.uploads;
    forall pair | pair in uploads ensures SafeUrl(pair.1) {
      var k :| 0 <= k < |uploads| && uploads[k] == pair;
      assert UploadAnswer(tape, k) == Done(pair.1);
    }
  }

  /** The products have the requested names and images, each image with what its upload answered. */
  ghost predicate Answered(req: P.Request, tape: nat -> Outcome, stored: seq<OutputProduct>) {
    && |stored| == |req.products|
    && (forall i | 0 <= i < |stored| ::
          && stored[i].name == req.products[i].name
          && stored[i].inputImageUrls == req.products[i].inputImageUrls
          && |stored[i].outputImageUrls| == |stored[i].inputImageUrls|)
    && P.AnswersOf(tape, P.Outputs(stored))
  }

  /**
   * Once a call succeeded, the stored products are the requested ones with the uploads' answers, and
   * their document reads back as those exactly when every requested name survives.
   */
  lemma WebhookDocumentReadsBack(req: P.Request, w: P.World, tape: nat -> Outcome, n: nat)
    requires Succeeds(req, w, tape, n) && UploadsSafe(req, tape)
    requires forall p | p in req.products :: SafeUrls(p.inputImageUrls)
    ensures Answered(req, tape, StoredProducts(req, w, tape, n))
    ensures DocumentReadsBack(StoredProducts(req, w, tape, n)) <==>
            forall p | p in req.products :: NameSurvives(p.name) && NewlineFree(p.name)
  {
    hide P.Perform, P.Pairs, P.Aligned, P.Complete, P.Combine, P.Outputs, P.AnswersOf, P.Images, SafeUrl, SafeUrls,
         NameSurvives, NewlineFree, DocumentReadsBack, DocumentSurvives, UploadsSafe, Succeeds, StoredProducts;
    StoredAre(req, w, tape, n);
    UploadedAreSafe(req, w, tape, n);
    P.CombineIsAligned(req.products, P.Perform(req, w, tape, n).1.outs);
    var outs := P.Perform(req, w, tape, n).1.outs;
    StoredUrlsAreSafe(req.products, outs);
    DocumentRoundTrip(P.Combine(req.products, outs));
    StoredNames(req.products, outs);
  }

  /** The stored products have the requested names. */
  lemma StoredNames(products: seq<Product>, outs: seq<seq<string>>)
    ensures DocumentSurvives(P.Combine(products, outs)) <==>
            forall p | p in products :: NameSurvives(p.name) && NewlineFree(p.name)
  {
    hide NameSurvives, NewlineFree;
    var stored := P.Combine(products, outs);
    if DocumentSurvives(stored) {
      forall p | p in products ensures NameSurvives(p.name) && NewlineFree(p.name) {
        var i :| 0 <= i < |products| && products[i] == p;
        assert stored[i] in stored && stored[i].name == p.name;
      }
    } else {
      var s :| s in stored && !(NameSurvives(s.name) && NewlineFree(s.name));
      var i :| 0 <= i < |stored| && stored[i] == s;
      assert products[i] in products && products[i].name == s.name;
    }
  }

  /** The request asks for products of an accepted text, and their URLs hold no quote. */
  predicate RequestOf(accepted: map<string, Product>, req: P.Request) {
    forall p | p in req.products ::
      p.name in accepted && accepted[p.name] == p && forall u | u in p.inputImageUrls :: '"' !in u
  }

  /** From end to end: what was accepted and processed reads back exactly when every name is plain. */
  lemma EndToEnd(isUrl: string -> bool, text: string, req: P.Request, w: P.World, tape: nat -> Outcome, n: nat)
    requires !isUrl("") && ParseText(isUrl, text).Ok? && RequestOf(ParseText(isUrl, text).value, req)
    requires Succeeds(req, w, tape, n) && UploadsSafe(req, tape)
    ensures Answered(req, tape, StoredProducts(req, w, tape, n))
    ensures DocumentReadsBack(StoredProducts(req, w, tape, n)) <==> forall p | p in req.products :: PlainName(p.name)
  {
    hide ParseText, Succeeds, UploadsSafe, StoredProducts, DocumentReadsBack, PlainName, Text.Trimmed, NewlineFree,
         SafeUrls, Answered;
    CsvMeaning.AcceptedIsWellFormed(isUrl, text);
    forall p | p in req.products ensures SafeUrls(p.inputImageUrls) && Text.Trimmed(p.name) && NewlineFree(p.name) {
      WellFormedIsSafe(isUrl, p);
    }
    WebhookDocumentReadsBack(req, w, tape, n);
  }
}
