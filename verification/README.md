# CSV image processing: a verified model

The service reads a CSV of products and image URLs, records a request, publishes it to Kafka,
and a consumer downloads, converts and uploads each image, stores the result and posts an output
CSV. This project models that pipeline in Dafny and proves what each part keeps, alone and with
all parts interleaved.

- **Reading.** `CsvScanner` is the hand-written column scanner; `CsvQuoting` says which written
  rows it reads back; `CsvReader` is the chunked reader with its row checks and its in-place merge;
  `CsvMeaning` says which texts are accepted and what they mean.
- **Writing.** `CsvWriter` is the output document and when the reader's own row split and scanner
  read it back; `Pipeline` carries that from the uploaded text to the document the webhook gets.
- **Consuming.** `KafkaConsumer` is one call of `eachMessage` around any processor; `OffsetGuard`
  is many such calls over one string-keyed cache, with redelivery, crashes and concurrency.
- **Processing.** `ImageProcessor` is the step-by-step run of `process` over database, temporary
  files and uploads; `RequestProcessing` holds the stores and the processor as objects, each method
  proved to follow that run; `Scheduling` creates the record and then the message.
- **The system.** `RequestLifecycle` interleaves schedulers, partitions, handlers and processors;
  `RequestSettlement` is how requests settle in it.

Every awaited call ends as an `Outcome`: done, or faulted with or without having taken effect. A
`tape` gives the outcomes of one call's awaits in order, so a statement for all tapes is a statement
for every pattern of failures. Failures of the interleaved system are chosen freely at each step.

What the proofs show that the code does not say:

- A quoted field is read back exactly when its content is not only quotes and, if it starts with
  quotes, a comma follows them (spaces aside). An empty quoted field comes back as a quote.
- A line separator at the end of the input, any of the four, matters for exactly one kind of text: a
  single blank line, which is accepted without it and is a bad header with it.
- The output document reads back exactly when every name is trimmed, free of commas and newlines,
  and has no quote at an end or next to another. The reader itself accepts more: a quoted `a,b` is
  a product of that name, and its document does not read back. From the uploaded text to the
  webhook's document, with URLs free of quotes and upload results free of commas, quotes, newlines
  and outer spaces, the condition left is that no name has such a comma or quote.
- The offset guard needs one active handler per topic, group and partition: with two, the stored
  offset can fall.
- A final status can be undone by a redelivery exactly when its message is not at or below the
  stored offset of its partition. The consumer's own settings have no cache, and then that is every
  message, those of requests that had succeeded included.
- Without a cache no message is lost. With one, a message whose cache read fails goes neither to the
  processor nor to the dead-letter topic, and the next stored offset of its partition closes it.
- `rmdir` rejects on an absent directory (Node 18, `Dockerfile:1`), and so the error handler writes
  Failed only where the directory is still there. For every pattern of failures the step at which
  the try block fails decides the status and whether the call rejects. When database and file system
  do not fail, a call leaves Processing exactly when no earlier call left a directory and the request
  has no images or its first download fails; otherwise Succeeded exactly when every image was done,
  even if the webhook then fails, and Failed when not. When they do fail, other steps can leave
  Processing too, a failed write of Succeeded among them: it comes after the directory is gone.

## Model

| member | source | states |
|---|---|---|
| CsvScanner.ParseCols | app/src/entities/csv/services/csv.entity.ts:95-137 | The loop over characters, with its look-back and look-ahead, computes the scan `Columns` |
| CsvScanner.NextToCommaOrEnd | app/src/entities/csv/services/csv.entity.ts:109-113 | The two space-skipping loops decide whether a quote is next to a comma or a row end |
| CsvScanner.Conservation | app/src/entities/csv/services/csv.entity.ts:95-137 | A row is accepted exactly when its structural quotes are even in number; its columns joined by commas are the row without them, doubled quotes collapsed; one column more than commas outside quotes |
| CsvScanner.QuoteFreeRow | app/src/entities/csv/services/csv.entity.ts:121-127 | On a row without quotes the scan is split on commas and trim |
| CsvQuoting.RoundTrip | app/src/entities/csv/services/csv.entity.ts:95-137 | For every row of raw or quoted fields, with inner quotes doubled and any spaces outside quotes, the scan gives the trimmed contents if and only if every quoted content survives |
| CsvQuoting.EmptyQuotedFieldIsAQuote | app/src/entities/csv/services/csv.entity.ts:102-107 | The concrete failure: an empty quoted field is read as one quote |
| CsvReader.ParseData | app/src/entities/csv/services/csv.entity.ts:46-93 | Chunking is invisible: for any chunks the products or the first error are those of the concatenated text |
| CsvReader.LinesRejoin | app/src/entities/csv/services/csv.entity.ts:55-57 | The lines of a text, with its newline characters put back between them, are the text |
| CsvReader.ChunkStep | app/src/entities/csv/services/csv.entity.ts:53-57 | Splitting the carried partial row plus the next chunk continues the rows of the text so far |
| CsvReader.SplitAgreesWithLines | app/src/entities/csv/services/csv.entity.ts:55-57 | The four-way separator and one-character line ends lead to the same state and tail: a separator cut in two only adds a row that is skipped |
| CsvReader.EmptyRowIsSkipped | app/src/entities/csv/services/csv.entity.ts:59-68 | After any row was taken, an empty row changes nothing |
| CsvReader.ReadRow | app/src/entities/csv/services/csv.entity.ts:59-74 | One complete row: scan error, header, blank or product, with the products updated in place |
| CsvReader.ReadProduct | app/src/entities/csv/services/csv.entity.ts:160-186 | Column count, product from the row, validation and merge, with the error each gives |
| CsvReader.ReadTail | app/src/entities/csv/services/csv.entity.ts:77-92 | What is left when the stream ends: skipped when blank, else header or product |
| CsvReader.ValidateHeaderRow | app/src/entities/csv/services/csv.entity.ts:139-154 | Header count and case-blind match, with their errors, as the row step has them; which headers pass is AcceptedHasHeader and AnyCaseIsAccepted |
| CsvReader.CSVData.MergeProductsData | app/src/entities/csv/services/csv.entity.ts:188-199 | The new map after a merge; throws exactly on names every object inherits |
| CsvReader.FirstOccurrences | app/src/entities/csv/services/csv.entity.ts:190-195 | Exactly the values that were there, none twice |
| CsvMeaning.FirstOccurrencesOrder | app/src/entities/csv/services/csv.entity.ts:190-195 | De-duplication keeps the order of first occurrence |
| CsvMeaning.MergeAllIsGroupBy | app/src/entities/csv/services/csv.entity.ts:188-199 | Merging row by row is grouping by name: one row keeps its list, several give the de-duplicated concatenation of all their lists |
| CsvMeaning.MeaningOfText | app/src/entities/csv/services/csv.entity.ts:46-93 | A text with a newline is accepted if and only if its first line has the three headers up to the case of letters and every later line is white space in all columns or a product row (three columns, a name, valid URLs); the result is those products grouped by name |
| CsvMeaning.MeaningOfOneLine | app/src/entities/csv/services/csv.entity.ts:77-91 | A text without a newline is accepted if and only if it is white space in all columns or the three headers, and has no products |
| CsvMeaning.TrailingNewline | app/src/entities/csv/services/csv.entity.ts:57-84 | Ending a text with any of the four separators changes its outcome exactly when the text is one blank line |
| CsvMeaning.AcceptedHasHeader | app/src/entities/csv/services/csv.entity.ts:139-154 | Every accepted text but a blank line begins with exactly three columns, "S. No.", "Product Name" and "Input Image Urls" up to the case of each letter |
| CsvMeaning.AnyCaseIsAccepted | app/src/entities/csv/services/csv.entity.ts:146-148 | The three headers in any case, joined by commas, are a header line |
| CsvMeaning.BadHeaderIsRejected | app/src/entities/csv/services/csv.entity.ts:146-153 | Any text that begins with three other plain columns is rejected for exactly those headers |
| CsvMeaning.SwappedHeaderIsRejected | app/src/entities/csv/services/csv.entity.ts:146-153 | The concrete case: two headers swapped above a valid product row |
| CsvMeaning.RejectionIsExplained | app/src/entities/csv/services/csv.entity.ts:59-91 | Every rejected text gives the error of its first line that is not accepted: unclosed quote, header count, header mismatch, column count, invalid product or inherited name, each with its cause |
| CsvMeaning.RowStepMeaning | app/src/entities/csv/services/csv.entity.ts:156-175 | After the header a row is skipped if and only if all its columns are white space, else merged as the product of its second and third columns, else an error |
| CsvMeaning.WrittenRowIsProduct | app/src/entities/csv/services/csv.entity.ts:160-175 | A row written as any number, a name and a list of padded URLs, quoted or not, is the product of that name and those URLs in order |
| CsvMeaning.AcceptedIsWellFormed | app/src/entities/csv/services/csv.entity.ts:160-199 | Every accepted text gives products under their own names, with trimmed, newline-free, non-empty names and non-empty lists of valid, trimmed, comma-free, newline-free URLs |
| CsvWriter.BuildCSV | app/src/entities/csv/services/csv.entity.ts:26-35 | The loop builds header and numbered rows, each ended by CR LF |
| CsvWriter.DocumentLineEnds | app/src/entities/csv/services/csv.entity.ts:28-31 | The document begins with the four output headers, and all its line ends are CR LF |
| CsvWriter.UrlTextIsSafe | app/src/entities/csv/services/csv.entity.ts:168-172 | Splitting and trimming a joined list of safe URLs gives the list back |
| CsvWriter.RowRoundTrip | app/src/entities/csv/services/csv.entity.ts:31 | For safe URL lists a written row reads back (number, name, both lists) if and only if its name survives unquoted |
| CsvWriter.DocumentRoundTrip | app/src/entities/csv/services/csv.entity.ts:26-35 | The document splits into header, one row per product that reads back, and an empty tail, if and only if every name survives and has no newline |
| CsvWriter.AcceptedProductsReadBack | app/src/entities/csv/services/csv.entity.ts:26-35 | For products of any accepted text with quote-free URLs and safe results, the document reads back if and only if no name has a comma, a quote at an end or two quotes in a row |
| CsvWriter.QuotedNameReadsBack | app/src/entities/csv/services/csv.entity.ts:95-137 | Every quoted name that survives the scanner is accepted as that name, and its document reads back if and only if the name is plain |
| CsvWriter.CommaNameIsLost | app/src/entities/csv/services/csv.entity.ts:31 | The concrete failure: the accepted product named `a,b` does not read back from its document |
| CsvWriter.InheritedNamesAreRefused | app/src/entities/csv/services/csv.entity.ts:188-195 | A row with one of the twelve names every object inherits is an error, whatever products there are |
| Pipeline.WebhookDocumentReadsBack | app/src/modules/image-processing/processors/image.processor.ts:99-107 | After any call that succeeded the stored products are the requested ones, each image with what its own upload call answered, and their document reads back as those if and only if every requested name survives |
| Pipeline.EndToEnd | app/src/modules/image-processing/processors/image.processor.ts:50-115 | For a request made of an accepted text: the same, and the document reads back if and only if every name is plain |
| Decimal.ParseIntReads | packages/queue-service/src/kafka/kafka-consumer-service.ts:187 | A rendered number is read back with white space and a sign before it and anything but a digit after it |
| Decimal.ParseIntReadsHex | packages/queue-service/src/kafka/kafka-consumer-service.ts:187 | After `0x` the number is read in base sixteen |
| KafkaConsumer.EndingOfTape | packages/queue-service/src/kafka/kafka-consumer-service.ts:84-143 | For every pattern of failures the ending is, if and only if, the one the decoding, the cache read, the stored offset, the processor and the flag give; an undecodable message never reaches the processor; the cache changes only by a completed call's offset |
| KafkaConsumer.KafkaConsumerService.EachMessage | packages/queue-service/src/kafka/kafka-consumer-service.ts:84-143 | Never rejects; ends and leaves the cache as just said, in at most five awaited calls, and the dead-letter topic gains this message once or not at all |
| KafkaConsumer.KafkaConsumerService.CheckOffset | packages/queue-service/src/kafka/kafka-consumer-service.ts:176-204 | Throws exactly when the offset is not above the cached one or the cache cannot be read |
| KafkaConsumer.KafkaConsumerService.PublishOffset | packages/queue-service/src/kafka/kafka-consumer-service.ts:206-223 | Writes the offset under the slot's key and swallows a failure |
| KafkaConsumer.KafkaConsumerService.PublishToDlq | packages/queue-service/src/kafka/kafka-consumer-service.ts:274-306 | Adds the message to the dead-letter topic when the publish takes effect, and nothing else; a failed publish is swallowed |
| KafkaConsumer.HeartbeatNeverMatters | packages/queue-service/src/kafka/kafka-consumer-service.ts:159-174 | Calls whose tapes differ only in the heartbeat end the same way with the same cache |
| KafkaConsumer.SuccessExcludesDlq | packages/queue-service/src/kafka/kafka-consumer-service.ts:110-142 | For any processor and failures: a processor that returned excludes the dead-letter topic, one that threw means exactly one attempt, a skipped message uses neither |
| KafkaConsumer.EndsWithinFive | packages/queue-service/src/kafka/kafka-consumer-service.ts:84-143 | Every call ends within five awaited calls |
| OffsetGuard.KeyInjective | packages/queue-service/src/kafka/kafka-consumer-service.ts:183-185 | For colon-free topics, keys differ between slots even when groups contain colons |
| OffsetGuard.StoreIsOneRegister | packages/queue-service/src/kafka/kafka-consumer-service.ts:183-213 | The string-keyed cache is one offset register per slot: a write is read back there and nowhere else |
| OffsetGuard.StepStaysGuarded | packages/queue-service/src/kafka/kafka-consumer-service.ts:112-127 | A handler past the check holds an offset above the stored one, after any handler's step |
| OffsetGuard.FreshIsGuarded | packages/queue-service/src/kafka/kafka-consumer-service.ts:41-57 | A new consumer over any cache content starts inside the invariant |
| OffsetGuard.OffsetsGuardRuns | packages/queue-service/src/kafka/kafka-consumer-service.ts:112-127 | Over all runs with one active handler per slot: stored offsets never fall, and no later processor start is at or below a stored offset |
| OffsetGuard.SharedSlotFallsBack | packages/queue-service/src/kafka/kafka-consumer-service.ts:112-127 | With two handlers on one slot there is a run in which the stored offset falls from 6 to 5 |
| RequestProcessing.RequestRepository.CreateRequest | app/src/services/repository-service/repositories/request/request.repository.ts:21-25 | Inserts the record unless its id is taken |
| RequestProcessing.RequestRepository.UpdateStatus | app/src/services/repository-service/repositories/request/request.repository.ts:27-43 | Sets the status of that record only and leaves its webhook URL and products, outputs included; throws when there is none or the call fails |
| RequestProcessing.RequestRepository.UpdateRequest | app/src/services/repository-service/repositories/request/request.repository.ts:59-74 | Sets exactly the given fields of that record; throws when there is no record or the call fails |
| RequestLifecycle.FoundExactlyWhenInserted | app/src/services/repository-service/repositories/request/request.repository.ts:45-57 | After any interleaving a status lookup that does not fail finds a request if and only if its insert took effect, and from then on always |
| RequestLifecycle.LookupAnswersLastWrite | app/src/services/repository-service/repositories/request/request.repository.ts:45-57 | Read after write: after any interleaving a lookup that does not fail answers the last status written for the request, Accepted by its insert or what its processors wrote |
| RequestLifecycle.OthersLeaveTheAnswer | app/src/services/repository-service/repositories/request/request.repository.ts:45-57 | An action for another request leaves the answer as it was |
| ImageProcessor.LookupAfterCall | app/src/services/repository-service/repositories/request/request.repository.ts:45-57 | After any number of awaits of any call the answer is the last status the call wrote; the webhook URL never changes, and products only together with Succeeded |
| RequestProcessing.TempStorage.Mkdir | app/src/modules/image-processing/processors/image.processor.ts:165 | Creates the request's directory if it is absent |
| RequestProcessing.TempStorage.WriteFile | app/src/modules/image-processing/processors/image.processor.ts:173-201 | Adds a downloaded or converted file, only where the directory exists |
| RequestProcessing.TempStorage.Convert | app/src/modules/image-processing/processors/image.processor.ts:184-207 | Reads the downloaded file and adds the converted one; throws when there is nothing to read |
| RequestProcessing.TempStorage.Unlink | app/src/modules/image-processing/processors/image.processor.ts:238-240 | Removes one file; throws when it is absent |
| RequestProcessing.TempStorage.Rmdir | app/src/modules/image-processing/processors/image.processor.ts:242-244 | Removes the directory with its files; throws when it is absent |
| RequestProcessing.Processor.Process | app/src/modules/image-processing/processors/image.processor.ts:50-115 | For every pattern of failures the call ends with the stores of the step-by-step run, returning or rejecting as that run does; exactly the attempted images are fetched, in order; the webhook is posted one document at most, only once Succeeded is stored, and it is that of the stored products, whose outputs are what the uploads answered |
| RequestProcessing.Processor.TryProcess | app/src/modules/image-processing/processors/image.processor.ts:51-111 | The try block follows the run to its return or to the error handler |
| RequestProcessing.Processor.ProcessProducts | app/src/modules/image-processing/processors/image.processor.ts:67-97 | The nested loops follow the run image by image and stop at the first failure |
| RequestProcessing.Processor.ProcessImage | app/src/modules/image-processing/processors/image.processor.ts:141-157 | Download, convert, drop the source, upload, drop the output, in that order |
| RequestProcessing.Processor.DownloadImage | app/src/modules/image-processing/processors/image.processor.ts:159-176 | Fetch the given URL, make the directory, write the file that came back |
| RequestProcessing.Processor.ConvertImage | app/src/modules/image-processing/processors/image.processor.ts:147-148 | Convert, then drop the source |
| RequestProcessing.Processor.UploadImage | app/src/modules/image-processing/processors/image.processor.ts:149-156 | Read, upload and drop the output; the image's output is what the upload call answered |
| RequestProcessing.Processor.Conclude | app/src/modules/image-processing/processors/image.processor.ts:99-107 | Remove the directory, write Succeeded with the products, build the CSV of those products and post it |
| RequestProcessing.Processor.HandleError | app/src/modules/image-processing/processors/image.processor.ts:270-283 | Remove the directory, then write Failed; rejects when either fails, without touching a record when there is no directory |
| ImageProcessor.RunsInOrder | app/src/modules/image-processing/processors/image.processor.ts:67-97 | At any point of any call, outputs are aligned with inputs and images were taken in the nested order |
| ImageProcessor.ImagesInOrder | app/src/modules/image-processing/processors/image.processor.ts:67-97 | Attempted images are a prefix of the nested order, at most one more than have a result, so a failed image is the last attempted |
| ImageProcessor.UploadsAreAnswers | app/src/modules/image-processing/processors/image.processor.ts:149-156 | At any point of any call the images with a result are the first of the nested order, and the result of image k is what its own upload, awaited call 7k + 6, answered |
| ImageProcessor.SuccessIsAligned | app/src/modules/image-processing/processors/image.processor.ts:67-139 | Once Succeeded was written every image was attempted and uploaded, and the record's outputs in nested order are exactly the answers of the uploads, image by image |
| ImageProcessor.CombineIsAligned | app/src/modules/image-processing/processors/image.processor.ts:68-83 | The stored products are the requested ones, each output list as long as its input list |
| ImageProcessor.StatusesRise | app/src/modules/image-processing/processors/image.processor.ts:50-115 | In one call statuses only rise, Succeeded and Failed are never both written, and a call that returns leaves a final status and no directory |
| ImageProcessor.BoundedFiles | app/src/modules/image-processing/processors/image.processor.ts:141-176 | From an empty directory at most two temporary files exist at any time, and other requests' directories are untouched |
| ImageProcessor.StepIsLocal | app/src/modules/image-processing/processors/image.processor.ts:50-115 | No step touches another request's record or directory |
| ImageProcessor.ErrorsAre | app/src/modules/image-processing/processors/image.processor.ts:51-112 | At any point of any call, the try block fails if and only if the awaited call fails or there is no directory to remove: no images and none left from before |
| ImageProcessor.ErrorDecidesStatus | app/src/modules/image-processing/processors/image.processor.ts:112-114 | For every pattern of failures: the failing step and the handler's two calls decide whether the call returns and which status it leaves |
| ImageProcessor.EveryCallEnds | app/src/modules/image-processing/processors/image.processor.ts:50-115 | A finished call met such an error, or it returned with its request Succeeded |
| ImageProcessor.EveryCallSettles | app/src/modules/image-processing/processors/image.processor.ts:50-115 | Whatever fails, a call settles within seven awaited calls per image and six more |
| ImageProcessor.StatusAfterCall | app/src/modules/image-processing/processors/image.processor.ts:270-283 | For every finished call, database and file system not failing: Processing if and only if there was no directory before and no images or a failed first download; else Succeeded if and only if every download, conversion and upload was done, and Failed otherwise |
| Scheduling.MessagingEntity.PublishProcessingRequest | app/src/entities/messaging/services/image-processing.messaging.entity.ts:24-42 | Appends the request to one partition |
| Scheduling.SchedulingService.ScheduleImageProcessing | app/src/modules/image-processing/services/scheduling.service.ts:22-40 | Is the system's create step and then its publish step; the record is Accepted with no outputs, a message is added only if the create call did not throw, and the id is returned exactly when both succeeded |
| RequestLifecycle.EveryMessageWasCreated | app/src/modules/image-processing/services/scheduling.service.ts:27-38 | Over every interleaving from the empty system each message stems from a creation of exactly that request that did not throw |
| RequestLifecycle.ThrownCreateIsNeverPublished | app/src/modules/image-processing/services/scheduling.service.ts:27-38 | A request whose creation threw, its record inserted or not, is on no message for ever |
| RequestLifecycle.MessagesHaveRecords | app/src/modules/image-processing/services/scheduling.service.ts:22-40 | Over every interleaving each message has a record with its id, webhook URL and input products, and no id is on two messages |
| RequestLifecycle.UpdatesFindTheirRecord | app/src/services/repository-service/repositories/request/request.repository.ts:27-41 | From the empty system, a processor at work always finds its request's record |
| RequestSettlement.RunsStaySound | app/src/modules/image-processing/processors/image.processor.ts:50-115 | Over every exclusive interleaving each processor keeps alignment and status order, and a handler past its processor left a final status and no directory |
| RequestSettlement.InitialIsSound | packages/queue-service/src/kafka/kafka-consumer-service.ts:41-57 | The empty system over any cache content is inside the invariant |
| RequestSettlement.PassedRecordsAreFinal | packages/queue-service/src/kafka/kafka-consumer-service.ts:112-127 | Once a message is at or below its partition's stored offset, nothing that follows changes its request's record |
| RequestSettlement.StoredOffsetCloses | packages/queue-service/src/kafka/kafka-consumer-service.ts:112-127 | A stored offset closes its message and every earlier one of the partition: their requests' records never change again |
| RequestSettlement.TerminalForEver | packages/queue-service/src/kafka/kafka-consumer-service.ts:125-127 | After the processor returned and its offset was stored, the request's final status stays for ever |
| RequestSettlement.EndingsAre | packages/queue-service/src/kafka/kafka-consumer-service.ts:110-142 | With or without a cache a handler ends in one of four ways, each if and only if its phase, the call's outcome and the stored offset are those given |
| RequestSettlement.SettledGoesOn | packages/queue-service/src/kafka/kafka-consumer-service.ts:125-141 | A processor that returned leads to the write of its message's offset, one that rejected to exactly one dead-letter attempt with the cache as it was |
| RequestSettlement.NoMessageIsLost | app/src/entities/messaging/services/image-processing.messaging.entity.ts:44-59 | With the dead-letter topic and no cache every handler that ends did so in one of two ways: its processor returned with a final status stored, or exactly one dead-letter publish was tried |
| RequestSettlement.ReopenedExactlyWhenNotPassed | packages/queue-service/src/kafka/kafka-consumer-service.ts:112-127 | Some exclusive run puts a request with a final status back to Processing if and only if its message is not at or below the stored offset |
| RequestSettlement.RedeliveryReopens | packages/queue-service/src/kafka/kafka-consumer-service.ts:112-125 | With no handler on the partition, one redelivery of a message not passed is that run |
| RequestSettlement.CachelessReopens | app/src/util/queue/kafka.config.ts:12-26 | With the consumer's own settings, which have no cache, every message can be reopened |

## Left out

- Characters are Unicode scalar values; JavaScript's UTF-16 code units differ only outside the basic plane, and chunks are taken not to cut a character.
- URL syntax is an arbitrary predicate on strings, and header case folding is ASCII: no other character folds into the expected headers.
- Key order of JavaScript objects: products are given in whatever order the record enumerates them, with each key equal to the product's name as the reader guarantees.
- `parseInt` gives exact integers: cached numbers beyond 2^53 - 1, which JavaScript rounds, are not rounded, and offsets beyond it are not delivered in the model.
- A cache write that arrives after its handler was declared dead is not modelled; a crash happens before or after a write's effect.
- A producer's own retries may append one message twice; the model appends it at most once.
- A failed directory removal leaves the directory whole or gone, not half emptied.
- The status message, timestamps and the document that `findOneAndUpdate` returns are not part of a record.
- The dead-letter message's body and headers: the topic holds which message was added.
- Download, conversion and upload contents, and the webhook's answer: each is a call that ends with a value or fails.
- UpdateRequest: an update that gives the record another request id is not modelled; no caller sends one.
- The MIME type check before parsing: one equality.
- Message encoding: decoding gives the published request or fails.
- Connecting, subscribing and disconnecting consumers, logging and tracing.
- HTTP controllers, multipart upload, health checks, environment validation and deployment.
