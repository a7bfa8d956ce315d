# Order-book replication, verified

A Dafny model of the market-data pipeline in `data_feed/`: a venue's frames go through a decoder and
a parser with one route per pair to a receiver, which is either a recording or a live stream; a
stream keeps the pair's book and sends it to every client watching it, each through a bounded queue that
drops what it cannot hold. The main promise is that every copy of a book agrees with a simple replay
of the venue's messages, over unbounded runs with late joins, gaps, checksum mismatches,
resubscriptions, reconnects and losses. The model covers that pipeline, the subscription
protocol that keeps it fed, and the arithmetic and codecs under it.

Where the source changes state in place, the model is a class or a method over an array, proved against a
specification function; where threads interleave, it is a step system whose runs take any
interleaving. Properties are stated over all inputs, all runs, or all reachable states. Besides safety, the
model proves progress: what every receiver, watcher and client must be told, by the messages alone, and that
from every reachable state a call's own steps lead to its effect.

## Files

| file | models |
|---|---|
| `Messages.dfy` | integer widths and the messages of one pair |
| `Books.dfy` | `l2/book.cc`: the replay every copy is compared with (`BookSpec`), and the book itself (`Books`) |
| `Crc32.dfy` | `crypto/crc32.cc`: the bit-by-bit CRC (`CrcBits`) and the table-driven one (`Crc32`) |
| `Decimals.dfy` | `core/decimal.cc`: fixed-point texts, and integers as printed (`Printing`) |
| `KrakenChecksum.dfy` | `kraken/checksum.cc` |
| `L2Parser.dfy` | `venue/l2_parser.cc`: routes and receivers' logs as values (`ParserSpec`), and the class (`L2Parsers`) |
| `L2Manager.dfy` | `venue/l2_manager.cc`, `venue/router.cc`, `frontend/outbox.cc`: one step system (`L2Manager`), and the class whose locked stretches are its steps (`L2Managers`) |
| `L2Progress.dfy` | what the manager gets done: what every receiver is told, and the calls that take effect (`L2Progress`) |
| `Coinbase.dfy` | `coinbase/l2_decoder.cc`, and a network that drops, repeats and reorders (`Lossy`) |
| `Quoted.dfy` | the book Coinbase's texts mean, as real numbers, and exactly when what the decoder reads of them stands for it |
| `Decodable.dfy` | exactly which of Coinbase's frames decode and what they deliver (`Decodable`), and a network that skips nothing (`Lossless`) |
| `Stream.dfy` | `frontend/stream.cc`, as one watcher sees it (`StreamSpec`), and the class (`Streams`) |
| `Session.dfy` | `Server::Session` in `frontend/server.cc` |
| `Replica.dfy` | what a client makes of its frames (`ClientSpec`), and any number of streams, one session and its commands composed (`Replica`) |
| `FileWriter.dfy` | `l2/file_writer.cc` over a directory of names and contents |
| `Recordings.dfy` | the files of a recording as bytes, and what they read back as |
| `RecordCodec.dfy` | `l2/message.cc`, `l2/message.h`, `l2/file_header.cc` and the reader their layout implies |
| `Envelope.dfy` | `frontend/wire.cc`: the frame header, and the Protocol Buffers reader of it |
| `Spsc.dfy` | `core/spsc.h`: both threads, step by step |
| `Aggregator.dfy` | `timing/aggregator.cc`: recorders, exits and the writer, step by step |

## What the code does not promise

Seven statements one might expect are false of the code. Each comes with the exact condition under which it
holds and with inputs for which it does not.

- Scaling a decimal text is exact only if 10^decimals and the result fit an i64
  (`Decimals.ScalingIsExact`). An integer part that does not fit is silently read as zero.
- So Coinbase's check does not refuse every text it cannot represent: an integer past i64 is
  accepted, as zero (`CoinbaseSpec.TooLargeReadsAsZero`, `CoinbaseSpec.TwentyNinesReadAsZero`).
- So a receiver's book is not always the venue's own: while decoding goes well, a bid at a price past i64 is
  in it at price zero (`Lossy.TooLargePriceIsTaken`). It is the venue's, in the numbers its texts stand for, after
  every change since the snapshot if and only if each change fits, or removes a level whose price does not
  and is read as one not in the book (`Quoted.RightExactlyIfHarmless`, `Lossy.BookSurvivesNetwork`).
- Scaling can put texts out of order. Every text at or below a given one is scaled to at most what that one is if
  and only if 10^decimals and its floor fit (`Decimals.OrderIsKeptExactlyIfItFits`); "1" is not, for any text too
  large (`Decimals.TooLargeBreaksOrder`).
- A level's digits in the checksummed text are the feed's digits without leading zeros except for
  zero, which prints as "0" (`KrakenChecksum.PrintedDigits`, `KrakenChecksum.ZeroPrintsADigit`). A book
  holds no zero quantity.
- A synchronised client's book is the stream's at every frame except right after a StreamInfo, where
  it has none yet (`Replica.ReplicaAgrees`, `Replica.LagHappens`).
- `Server::Watch` watches the new stream before it leaves the old one, and a FeedStatus names no stream, so a
  gap of the old stream between the two clears the new stream's book at the client. A client agrees with its own
  stream at every frame if and only if no other stream's gap status reaches it while it has a book
  (`ClientSpec.DiffersExactlyIfSpoiled`, `Replica.RunsDifferExactlyIfSpoiled`); only the stream being left can send
  one, between the two calls (`Replica.OnlySwitchingSpoils`); it agrees again from its own stream's next snapshot
  or gap (`ClientSpec.CleanAgrees`); and a run is given in which it happens (`Replica.SwitchingCanClear`).

One more bound is out of reach rather than false: a frame's payload length is written as a u32, so a frame reads
back exactly if its payload is under 2^32 bytes (`Envelope.FrameParsesBack`), and Protocol Buffers serializes no
more than 2 GiB.

## Model

| member | source | states |
|---|---|---|
| `BookSpec.TopShape` | data_feed/l2/book.cc:25-27 | cutting a side at a depth keeps min(depth, size) levels, with their quantities, each better than every level dropped |
| `BookSpec.TopIsUnique` | data_feed/l2/book.cc:25-27 | those three facts determine the cut side: the top levels are the only ones that have them |
| `BookSpec.BatchIsLastWrite` | data_feed/l2/book.cc:18-24 | after a batch a price holds the last quantity the batch wrote to it, is absent if that was zero, and is untouched if there was none |
| `BookSpec.BatchOrderIsIrrelevant` | data_feed/l2/book.cc:14-28 | two orders of the same levels with distinct prices leave the same side, as truncation comes once, after the batch |
| `BookSpec.TruncatingEachLevelDiffers` | data_feed/l2/book.cc:18-27 | a batch and a depth for which truncating after every level would empty a side the code keeps |
| `BookSpec.TruncationRefines` | data_feed/l2/book.h:23-27 | if the venue sends what enters or changes in its top levels and the removals of top levels it deleted, but not of those pushed out, applying it to the old top gives the new top |
| `BookSpec.ReplayRefinesVenue` | data_feed/l2/book.h:23-27 | for every run of such a venue, replaying its messages yields the top of its current full book |
| `BookSpec.ApplyFits` | data_feed/l2/book.cc:32-38 | a book never holds a zero quantity nor more levels than its depth |
| `BookSpec.SnapshotRebuildsBook` | data_feed/l2/book.cc:32-38 | a snapshot listing a book's levels, applied over anything, leaves exactly that book |
| `BookSpec.Listing` | data_feed/l2/book.h:17-19 | a side can be listed: every level once, best first |
| `BookSpec.ListingIsUnique` | data_feed/l2/book.h:17-19 | and in one way only |
| `Books.LowerBound` | data_feed/l2/book.cc:20-22 | the position of a price in a sorted side: everything before it is better, nothing from it on is |
| `Books.SetLevel` | data_feed/l2/book.cc:19-23 | one level set or erased in the sorted side is the same change of its price map |
| `Books.ApplyLevels` | data_feed/l2/book.cc:14-28 | the loop over the batch and the truncation after it leave the sorted listing of what ApplySide specifies |
| `Books.Book.Apply` | data_feed/l2/book.cc:32-38 | the object's new state is the specified Apply of its old one, its sides sorted listings again |
| `Books.Book.Clear` | data_feed/l2/book.cc:40-43 | the book is empty |
| `Books.Book.SidesAreListings` | data_feed/l2/book.h:17-19 | iterating the sides yields the price maps' levels, best first |
| `CrcBits.ShiftOut` | data_feed/crypto/crc32.cc:15-18 | the inner loop of eight conditional shifts is the bit-by-bit CRC step of one byte |
| `CrcBits.BuildCrc32Table` | data_feed/crypto/crc32.cc:12-22 | the table holds that step for all 256 bytes |
| `Crc32.LookUpFeeds` | data_feed/crypto/crc32.cc:31 | one table lookup is one byte of the bit-by-bit CRC, whatever the state |
| `Crc32.Crc32` | data_feed/crypto/crc32.cc:26-34 | the table-driven loop computes the bit-by-bit CRC-32 of section 8 of RFC 1952 on every input |
| `CrcBits.CheckValue` | data_feed/crypto/crc32_unittest.cc:16-20 | the checksum of "123456789" is the CRC's published check value |
| `CrcBits.FeedIsInjective` | data_feed/crypto/crc32.cc:31 | the state update is one-to-one for each byte |
| `CrcBits.FeedAllIsInjective` | data_feed/crypto/crc32.cc:30-32 | two states stay different through any bytes fed to both |
| `CrcBits.FeedAllIsWord` | data_feed/crypto/crc32.cc:30-32 | feeding four bytes is shifting out 32 bits of the state xor the bytes as one word |
| `CrcBits.BurstIsDetected` | data_feed/crypto/crc32.cc:26-34 | inputs of one length that differ, but only within up to four consecutive bytes, have different checksums |
| `Decimals.Pow10` | data_feed/core/decimal.cc:14-20 | the loop returns 10^exponent, or none where the i64 product overflows |
| `Decimals.ScaleDecimalStringToI64` | data_feed/core/decimal.cc:24-45 | the method computes the specified value, undefined exactly where a product or sum leaves i64 |
| `Decimals.DigitsAreFloor` | data_feed/core/decimal.cc:24-45 | integer digits and kept fraction digits, padded, are the floor of the value times 10^decimals, and exact if no digit was cut |
| `Decimals.ScalingIsExact` | data_feed/core/decimal.cc:24-45 | the code returns that floor if and only if decimals is at most 18 and the floor fits an i64 |
| `Decimals.ScalingKeepsOrder` | data_feed/core/decimal.cc:24-45 | of two texts in order, if 10^decimals and the larger one's floor fit an i64, both are scaled, and in order |
| `Decimals.OrderIsKeptExactlyIfItFits` | data_feed/core/decimal.cc:24-45 | the code scales every text at or below a given one, and in order with it, if and only if that one's floor fits |
| `Decimals.TooLargeBreaksOrder` | data_feed/core/decimal.cc:32-45 | for every text too large, "1" is not above it and yet not scaled in order with it |
| `Decimals.FractionDigitsIsLeast` | data_feed/core/decimal.cc:47-54 | FractionDigits is at most d if and only if the value times 10^d is an integer |
| `Printing.PrintReadsBack` | data_feed/kraken/checksum.cc:21 | printing a number yields only digits, which read back as the number |
| `KrakenChecksum.PrintedDigits` | data_feed/kraken/checksum.h:12-17 | a scaled level prints as the feed's text padded to the precision, without point and leading zeros, if and only if it is not zero |
| `KrakenChecksum.ZeroPrintsADigit` | data_feed/kraken/checksum.h:12-17 | zero prints as one digit where the documented text has none |
| `KrakenChecksum.AppendSide` | data_feed/kraken/checksum.cc:16-23 | the loop appends the ten best levels, best first, price then quantity |
| `KrakenChecksum.BookChecksum` | data_feed/kraken/checksum.cc:27-32 | the method returns the CRC of the asks' text followed by the bids' |
| `KrakenChecksum.TextIsDocumented` | data_feed/kraken/checksum.h:12-17 | for levels scaled from feed texts, the hashed text of a side is the documented one |
| `KrakenChecksum.ChecksumIsDocumented` | data_feed/kraken/checksum.h:12-17 | the checksum is the CRC over the bytes of Kraken's documented string: the ten best asks' texts, then the ten best bids' |
| `ParserSpec.GoodLogMeans` | data_feed/venue/l2_parser.h:94-113 | a log checked event by event starts, and resumes after every gap, with a snapshot; has the end of a connection between messages of two connections and after all of its own; and carries only checksums its replay has |
| `ParserSpec.EmitIsValid` | data_feed/venue/l2_parser.cc:106-142 | whatever the venue sends, Emit keeps every receiver's log well formed, and the book of a pair not waiting equal to its receiver's replay |
| `ParserSpec.EmitDelivers` | data_feed/venue/l2_parser.cc:106-142 | judged by the log alone: a snapshot, or an update while messages flow, makes the receiver's log grow by exactly that message if there is no check, no checksum, or the replay with it has it; else by exactly a gap, the pair waiting and returned. Anything else changes nothing; no other log or route changes, and no route's precision, depth or receiver |
| `ParserSpec.FindIsGated` | data_feed/venue/l2_parser.cc:100-104 | a decoder is given a pair's precision exactly when a message of that kind is owed its receiver |
| `ParserSpec.StartIsValid` | data_feed/venue/l2_parser.cc:42-60 | so does starting a connection |
| `ParserSpec.AttachIsValid` | data_feed/venue/l2_parser.cc:69-82 | so does attaching a fresh receiver |
| `ParserSpec.DetachIsValid` | data_feed/venue/l2_parser.cc:84-90 | so does detaching a pair |
| `ParserSpec.EndConnectionIsValid` | data_feed/venue/l2_manager.cc:305-323 | so does ending a connection, if every attached receiver is told |
| `ParserSpec.FailedStartIsValid` | data_feed/venue/l2_manager.cc:81-87 | a failed attempt to connect tells no receiver anything |
| `ParserSpec.LogBookIsReplay` | data_feed/l2/book.cc:32-38 | the book of a log is the replay of its messages since the last snapshot |
| `ParserSpec.RouteBookIsReplay` | data_feed/venue/l2_parser.cc:122-138 | the checksummed book of a pair not waiting is the replay of what its receiver got since the last snapshot |
| `L2Parsers.AwaitSnapshots` | data_feed/venue/l2_parser.cc:46-50 | the loop makes every route wait for a snapshot and changes nothing else |
| `L2Parsers.L2Parser.Start` | data_feed/venue/l2_parser.cc:42-60 | the object's new state is the specified Start of its old one, and the invariant stays |
| `L2Parsers.L2Parser.Stop` | data_feed/venue/l2_parser.cc:62-67 | only `running` changes |
| `L2Parsers.L2Parser.Attach` | data_feed/venue/l2_parser.cc:69-82 | succeeds if and only if the pair has no receiver, adding a waiting route with an empty book; else changes nothing |
| `L2Parsers.L2Parser.Detach` | data_feed/venue/l2_parser.cc:84-90 | removes the pair's route and nothing else |
| `L2Parsers.L2Parser.Find` | data_feed/venue/l2_parser.cc:100-104 | the pair's precision, none for unknown pairs and for updates of a waiting one |
| `L2Parsers.L2Parser.Emit` | data_feed/venue/l2_parser.cc:106-142 | the pair's receiver is told exactly what its log says it is owed, no one else anything; on a mismatch the book is cleared, the pair waits and is returned; the invariant stays |
| `SubscriptionIds.IdsNameTheirParts` | data_feed/venue/manager.h:41-67 | an id gives back its counter, venue and sink, and a later id is larger |
| `L2Manager.TableStays` | data_feed/venue/l2_manager.cc:110-171 | every step keeps at most one subscription per symbol and the parser's routes equal to the table |
| `L2Manager.IdsStayFresh` | data_feed/venue/router.cc:72-92 | every step keeps issued ids below the counter, and one on its way to the table unused elsewhere |
| `L2Manager.VenueStays` | data_feed/venue/l2_manager.cc:88-95 | every step keeps the requests sent on this connection adding up to the table, short of what the call in progress has yet to send |
| `L2Manager.WaitsStay` | data_feed/venue/l2_manager.cc:252-303 | every step keeps each waiting pair queued, in hand, about to be subscribed, or subscribed since it began to wait |
| `L2Manager.TimesStay` | data_feed/venue/l2_manager.cc:263-290 | every step keeps resubscriptions of a pair an interval apart |
| `L2Manager.NoPairIsStuck` | data_feed/venue/l2_manager.cc:252-303 | in every run, a pair waiting on a connected manager with no call in progress is queued, in the resubscriber's hand, or was subscribed to since it began to wait, and the venue is left streaming it |
| `L2Manager.ResubscriptionsAreSpaced` | data_feed/venue/l2_manager.cc:263-290 | in every run, two resubscriptions of one pair are at least kMinResubscribeInterval apart |
| `L2Manager.TableRoutesAndVenueAgree` | data_feed/venue/l2_manager.cc:110-171 | in every run, between calls: one subscription per symbol, routes exactly the table's symbols, and while connected the requests sent add up to exactly the routes; receivers and depths are the table's in all three |
| `L2Manager.CallerErrorsAreUnreachable` | data_feed/venue/l2_manager.cc:215-220 | in every run, no id is in use twice, no stream registered twice, no pair attached twice |
| `L2Manager.ReceiverLogsAreWellFormed` | data_feed/venue/l2_manager.cc:305-323 | in every run, every receiver's log has the grammar and the checksums of GoodLogMeans |
| `L2Progress.ReceiversAreToldAll` | data_feed/venue/l2_manager.cc:305-323 | in every run, a receiver's log is exactly what it was owed, step by step: each frame's message of its pair, or the gap it caused, and each end of a connection that was up |
| `L2Progress.CheckPassesExactlyIfFree` | data_feed/venue/l2_manager.cc:117-126 | the first check of a Subscribe passes if and only if no entry of the table has the symbol; else the call is forgotten; nothing else changes |
| `L2Progress.CommitGivesUpIfTaken` | data_feed/venue/l2_manager.cc:131-135 | if the symbol was taken during the round trip, the second check forgets the call and changes nothing else |
| `L2Progress.SubscribeSucceeds` | data_feed/venue/l2_manager.cc:110-154 | from every reachable state with no call in progress, ids left and the symbol free, the steps of a Subscribe lead to its table entry, its route with its precision, depth and receiver, an empty log, and while connected the venue left streaming the pair at that depth; nothing else changes in any of them |
| `L2Progress.UnsubscribeSucceeds` | data_feed/venue/l2_manager.cc:157-171 | likewise those of an Unsubscribe lead to a table, routes and requests that are without the pair and otherwise the same |
| `L2Progress.ConnectSucceeds` | data_feed/venue/l2_manager.cc:73-98 | from every reachable state with no call in progress and no healthy connection, the steps of a Connect lead to a healthy new one with every route as it was but waiting and the venue left streaming exactly the table, or to a disconnected manager if the feed fails; receivers are told the end of a connection that was up and nothing else |
| `L2Progress.FailureIsMended` | data_feed/venue/l2_manager.cc:73-80 | so a connection that fails is replaced by one that is not failed |
| `L2Progress.MismatchesAreMended` | data_feed/venue/l2_manager.cc:252-303 | from every reachable connected state with no call in progress, the resubscriber's own steps empty its queue and hand, and every pair in them that has a subscription is subscribed to again |
| `L2Progress.PendingAreDistinct` | data_feed/venue/l2_manager.cc:252-261 | in every run, no pair is queued twice |
| `L2Manager.FailedConnectIsSilent` | data_feed/venue/l2_manager.cc:80-87 | a failed connect attempt adds nothing to any receiver's log |
| `L2Manager.SubscribeIsTwoSteps` | data_feed/venue/l2_manager.cc:131-151 | a Subscribe's locked second half, when nothing is taken, is its commit step and then its request; its id has no log and its pair no route |
| `L2Manager.UnsubscribeIsTwoSteps` | data_feed/venue/l2_manager.cc:157-171 | an Unsubscribe of a live id is the step that detaches the pair and asks the venue to stop, and the one that forgets the subscription |
| `L2Manager.ReconnectsInOneGo` | data_feed/venue/l2_manager.cc:73-98 | a Connect that finds no healthy connection is the steps that end the last one, bring the feed up or fail, and send every subscription |
| `L2Manager.ConnectingMakesHealthy` | data_feed/venue/l2_manager.cc:73-98 | a Connect that finds no healthy connection ends connected and not failed if the feed came up, and otherwise disconnected |
| `L2Manager.FinishConnectKeepsInvariant` | data_feed/venue/l2_manager.cc:88-95 | requesting every subscription again, in the order of the ids, ends in a state satisfying every invariant of the runs |
| `L2Manager.ReconnectedKeepsInvariant` | data_feed/venue/l2_manager.cc:73-98 | so does a whole Connect, whether or not the feed comes up |
| `L2Manager.ResubscribeIsThreeSteps` | data_feed/venue/l2_manager.cc:292-303 | a Resubscribe is the steps that begin it, unsubscribe and subscribe, leaving those two requests in that order |
| `L2Managers.Manager.NextId` | data_feed/venue/router.cc:79-86 | the next id, none once 2^48 - 1 were handed out; the counter moves on either way; the object stays valid |
| `L2Managers.Manager.FindSymbolLocked` | data_feed/venue/l2_manager.cc:237-243 | the search finds a subscription to the symbol if and only if there is one |
| `L2Managers.Manager.ResolveTakenLocked` | data_feed/venue/l2_manager.cc:215-235 | whether the symbol is taken; the throw for an id in use is unreachable |
| `L2Managers.Manager.CheckBeforeFetch` | data_feed/venue/l2_manager.cc:117-124 | taken if and only if some entry of the table has the symbol; then the call is forgotten, else it is marked checked; the object stays valid |
| `L2Managers.Manager.Commit` | data_feed/venue/l2_manager.cc:131-154 | gives up if the symbol was taken meanwhile; else table, stream, route and request are as two steps leave them; the object stays valid |
| `L2Managers.Manager.Unsubscribe` | data_feed/venue/l2_manager.cc:157-171 | fails exactly for unknown ids, changing nothing; else route, request and table are as two steps leave them; the object stays valid |
| `L2Managers.Manager.Disconnect` | data_feed/venue/l2_manager.cc:100-103 | is the step Disconnect, and the object stays valid |
| `L2Managers.Manager.DisconnectLocked` | data_feed/venue/l2_manager.cc:305-323 | the parser stops, and if the connection was up every subscription's receiver is told once that it ended |
| `L2Managers.Manager.Connect` | data_feed/venue/l2_manager.cc:73-98 | nothing on a healthy connection; else the steps of a reconnect, with every subscription requested in the order of the ids; succeeds if and only if the manager is then healthy; the object stays valid |
| `L2Managers.Manager.Emit` | data_feed/venue/l2_parser.cc:106-142 | a message emitted is the step Frame, followed on a mismatch by QueueMismatch; the object stays valid |
| `L2Managers.Manager.RequestResubscribe` | data_feed/venue/l2_manager.cc:252-261 | is the step QueueMismatch: the pair is queued once |
| `L2Managers.Manager.Resubscribe` | data_feed/venue/l2_manager.cc:292-303 | sends both requests if connected and the pair is subscribed to, else nothing; the object stays valid |
| `CoinbaseSpec.RefusesOnlyTooFine` | data_feed/coinbase/l2_decoder.cc:46-61 | a nonnegative decimal is refused if and only if no integer is exactly its value times 10^decimals |
| `CoinbaseSpec.ReadsExactlyWhatFits` | data_feed/coinbase/l2_decoder.cc:46-61 | a representable decimal is never refused, and read without loss if and only if it fits an i64 at 18 decimals or fewer |
| `CoinbaseSpec.TooLargeReadsAsZero` | data_feed/coinbase/l2_decoder.cc:46-61 | every integer text past i64 is accepted, as zero |
| `CoinbaseSpec.TwentyNinesReadAsZero` | data_feed/coinbase/l2_decoder.cc:46-61 | for instance twenty nines |
| `Coinbase.L2Decoder.Advance` | data_feed/coinbase/l2_decoder.cc:159-173 | a number follows, is stale, or skips, as judged against the last one |
| `Coinbase.L2Decoder.Decode` | data_feed/coinbase/l2_decoder.cc:116-157 | the decoder's and the parser's new states and the outcome are the specified ones, on every branch |
| `Coinbase.L2Decoder.DecodeHeartbeats` | data_feed/coinbase/l2_decoder.cc:140-146 | the loop advances the heartbeat counter and stops at the first skip |
| `Coinbase.L2Decoder.DecodeEvents` | data_feed/coinbase/l2_decoder.cc:154-156 | the loop emits the events in order up to the first that throws |
| `Coinbase.L2Decoder.DecodeEvent` | data_feed/coinbase/l2_decoder.cc:82-112 | one event emits the specified message with all its levels, nothing if not wanted, and throws before emitting if its kind is unknown or any part is bad |
| `Coinbase.L2Decoder.DecodeLevels` | data_feed/coinbase/l2_decoder.cc:100-110 | the loop reads the levels onto their sides in order, stopping at the first bad one |
| `Decodable.FramesThrowExactlyIfBad` | data_feed/coinbase/l2_decoder.cc:46-173 | a frame that follows decodes if and only if every event is a snapshot or an update, every level of a product with a route past its snapshot is on the bid or the offer side with texts neither negative, too fine nor overflowing, and no heartbeat skips; unless a text overflows it otherwise throws |
| `Decodable.LateFramesAreIgnored` | data_feed/coinbase/l2_decoder.cc:159-173 | a frame at or below the last number, or without one, changes nothing and never throws |
| `Decodable.SkipsThrow` | data_feed/coinbase/l2_decoder.cc:159-173 | a frame more than one past the last number throws and changes nothing |
| `Decodable.EventIsDelivered` | data_feed/coinbase/l2_decoder.cc:82-112 | a good event tells its product's receiver one message: its kind, no checksum, both times, and its levels in order, each text scaled, on their sides |
| `Decodable.HeartbeatsAreFine` | data_feed/coinbase/l2_decoder.cc:140-146 | heartbeats skip if and only if one is more than one past all before it |
| `Lossless.FramesAreDelivered` | data_feed/coinbase/l2_decoder.cc:116-157 | a frame that decodes tells each attached product's receiver exactly its wanted events' messages, in order, with the frame's own times |
| `CoinbaseSpec.NoHeartbeatIsSkipped` | data_feed/coinbase/l2_decoder.cc:140-146 | unless decoding one frame's counters throws, every number between the last one before and the last one after is among them |
| `Lossy.NoHeartbeatIsMissed` | data_feed/coinbase/l2_decoder.h:23 | over a whole connection, its heartbeats spread over frames dropped, repeated and reordered: while decoding neither throws nor overflows, every number from the first one acted on to the last was received |
| `Lossy.AcceptedIsABlock` | data_feed/coinbase/l2_decoder.h:20-22 | whatever a network drops, repeats or reorders, and whatever is attached and detached between frames, while decoding neither throws nor overflows the frames acted on are a contiguous block of the venue's, in order, each once |
| `Lossy.BookSurvivesNetwork` | data_feed/coinbase/l2_decoder.cc:116-173 | and the receiver of any product attached at full depth before or during the connection, once its snapshot got through, replays to what the decoder reads of all the venue sent of it up to the last frame acted on; if its texts since that snapshot are decimals, this was the venue's own book after every change if and only if each was harmless, as all are that fit |
| `Lossless.LosslessIsFine` | data_feed/coinbase/l2_decoder.cc:116-173 | however long a connection, whatever is repeated or attached: if nothing is skipped after its first frame, the venue's heartbeats are consecutive, its kinds known and its levels readable at every precision attached, decoding never throws nor overflows and ends at the highest number that arrived |
| `Lossless.WholeDeliveryHasTheBook` | data_feed/coinbase/l2_decoder.cc:116-173 | so a venue delivered whole leaves the receiver of a product attached at full depth, once a snapshot was sent and if its texts fit, with the venue's own book |
| `Lossy.TooLargePriceIsTaken` | data_feed/coinbase/l2_decoder.cc:82-112 | for every price past i64, a connection whose decoding is fine and whose receiver then has the bid at price zero, which is not the venue's book |
| `Quoted.ReadsWhatIsSent` | data_feed/coinbase/l2_decoder.cc:46-61 | a decimal is read as the number it stands for if and only if it is not finer than the product's decimals and its floor fits an i64 |
| `Quoted.StaysExactlyIfHarmless` | data_feed/coinbase/l2_decoder.cc:100-110 | from a book that is the venue's, one change read leaves it so if and only if both texts fit, or it removes a price that does not and is read as one not there |
| `Quoted.MessageTakesAll` | data_feed/coinbase/l2_decoder.cc:100-112 | applying the message made of an event to a full-depth book is taking its levels one at a time, on their sides |
| `Quoted.RightExactlyIfHarmless` | data_feed/coinbase/l2_decoder.cc:82-112 | over any history of decimals the decoder read: the book stands for the venue's own after every change since the last snapshot if and only if each was harmless |
| `StreamSpec.GateIsTheGrammar` | data_feed/venue/l2_parser.h:94-113 | the condition assumed of what a stream is fed is, event by event, exactly the snapshot gate proved of every receiver's log |
| `StreamSpec.OpKeepsValid` | data_feed/frontend/stream.cc:66-113 | every operation keeps the stream's book the replay of what it was told, and its watcher's fold of what it was sent equal to the stream's book at each send but a StreamInfo |
| `StreamSpec.SnapshotIsCertified` | data_feed/frontend/stream.cc:115-125 | the snapshot built for a late watcher rebuilds the replay, and matches the checksum it carries |
| `StreamSpec.WatchSendsOwed` | data_feed/frontend/stream.cc:94-106 | by what the stream was told alone: a new watcher is sent StreamInfo, then nothing if that is nothing, DEGRADED or DISCONNECTED after a gap of that kind, or after a message a snapshot of the replay with the last checksum and times |
| `StreamSpec.OpSendsOwed` | data_feed/frontend/stream.cc:66-113 | each operation sends a watcher exactly: a message's Book, with LIVE before it if it is a snapshot right after a gap; a gap's own status; and nothing while it does not watch |
| `StreamSpec.WatchersAreSentAll` | data_feed/frontend/stream.cc:66-113 | over every history of a stream, what a watcher is sent is exactly that, in order |
| `Streams.Stream.constructor` | data_feed/frontend/stream.cc:41-64 | a new stream has an empty book, no snapshot and no watcher |
| `Streams.Stream.SendLocked` | data_feed/frontend/stream.cc:127-131 | the loop sends to every watcher once and to no one else |
| `Streams.Stream.Receive` | data_feed/frontend/stream.cc:66-82 | as every watcher sees it, the new state is the specified one: LIVE first if a snapshot ends a gap, the change applied, then sent |
| `Streams.Stream.Interrupt` | data_feed/frontend/stream.cc:84-92 | as every watcher sees it: the book dropped, then the gap's status sent |
| `Streams.Stream.Watch` | data_feed/frontend/stream.cc:94-106 | the new watcher gets what WatchSendsOwed says, then is a watcher once; no other watcher notices |
| `Streams.Stream.Unwatch` | data_feed/frontend/stream.cc:108-113 | the watcher is none any more; no other watcher notices |
| `Streams.Stream.SnapshotLocked` | data_feed/frontend/stream.cc:115-125 | the snapshot lists the book, best first, with the last message's checksum and times |
| `SessionSpec.EnqueueIsValid` | data_feed/frontend/server.cc:249-273 | Enqueue keeps the queue bounded, one write in flight exactly while an open session's queue is not empty, and the numbering |
| `SessionSpec.WrittenIsValid` | data_feed/frontend/server.cc:278-296 | so does the end of a write, good or bad |
| `SessionSpec.WireIsInOrder` | data_feed/frontend/server.cc:249-296 | in every run: the queue never passes kMaxBacklogFrames nor the pending commands kMaxPendingCommands; frames go out with strictly increasing numbers, each carrying what was offered under it; and the numbers missing before the last are exactly those dropped, all Books |
| `SessionSpec.KeepingUpLosesNothing` | data_feed/frontend/server.cc:249-273 | in every run whose queue never fills, frame i carries number i and the i-th payload offered |
| `SessionSpec.SessionsEndOnlyFor` | data_feed/frontend/server.cc:186-296 | in every run: a session is closed if and only if it was hung up, a read or write failed, a command came while kMaxPendingCommands were pending, or a payload other than a Book while kMaxBacklogFrames frames were queued |
| `SessionSpec.ClosedStaysSilent` | data_feed/frontend/server.cc:286-295 | in every run: once closed, a session stays so and starts no further write |
| `SessionSpec.PendingAreUnanswered` | data_feed/frontend/server.cc:183-226 | in every run: the pending commands are those run less those answered; one is run if it was read well, the session is open and fewer than kMaxPendingCommands are pending |
| `SessionSpec.OnlyFullQueuesDrop` | data_feed/frontend/server.cc:249-273 | in every run: every payload offered while open, and not closing the session, took the next number, and the numbers dropped are exactly those of Books that found kMaxQueuedFrames frames queued |
| `SessionSpec.QueueIsWritten` | data_feed/frontend/server.cc:278-296 | from every valid open state, good writes alone empty the queue, in order |
| `Sessions.Session.Enqueue` | data_feed/frontend/server.cc:249-273 | the object's new state is the specified Enqueue of its old one, and the invariant stays |
| `Sessions.Session.WriteFront` | data_feed/frontend/server.cc:278-288 | starts writing the front frame; callable only with no write in flight |
| `Sessions.Session.Written` | data_feed/frontend/server.cc:286-295 | a failed write closes; a good one pops and starts the next unless closed |
| `Sessions.Session.Read` | data_feed/frontend/server.cc:211-226 | a command is run, and counted pending, if and only if reading succeeded, the session was open and fewer than kMaxPendingCommands were pending; else the session closes; the queue is untouched |
| `Sessions.Session.Close` | data_feed/frontend/server.cc:186-201 | the session is closed, its queued frames left in place |
| `ClientSpec.SyncedIsIdeal` | proto/market_data.proto:143-149 | a client that has missed no number since its last StreamInfo is where a client nothing is lost to would be |
| `ClientSpec.OwnIsView` | proto/market_data.proto:65-69 | of any interleaving of streams' sends, a client heeding only the stream of its last StreamInfo sees what that stream's sends alone would show |
| `ClientSpec.DiffersExactlyIfSpoiled` | data_feed/frontend/server.cc:523-547 | over any interleaving, a client agrees with its own stream at every frame if and only if no other stream's DISCONNECTED or DEGRADED ever reaches it while its own stream's book is not empty |
| `ClientSpec.CleanAgrees` | data_feed/frontend/server.cc:523-547 | a client whose book was spoiled agrees again from its next StreamInfo, or its own stream's next snapshot or gap |
| `Replica.ReplicaAgrees` | data_feed/frontend/server.cc:249-273 | in every run of streams, commands, session and network, a client that missed no number since its last StreamInfo has, if nothing spoiled its book since its stream's last snapshot or gap, the book its stream held at the last frame it read, which is the replay of all the stream had been told by then; right after a StreamInfo it is empty instead, and then differs exactly if the stream's is not |
| `Replica.ClientBookIsCertified` | data_feed/frontend/stream.cc:66-125 | in every run, if the venue's checksums held of all its stream was told, such a client's book has the nonzero checksum of the Book it read last of its stream |
| `Replica.OnlySwitchingSpoils` | data_feed/frontend/server.cc:523-547 | in every run, the only send that can spoil a book is one of the stream being left, between Watch's two calls, after the new stream's StreamInfo |
| `Replica.RunsDifferExactlyIfSpoiled` | data_feed/frontend/server.cc:523-547 | in every run, over any prefix of what the streams posted, the client agrees with its own stream throughout if and only if its book was never spoiled |
| `Replica.ManagerFeedsStreams` | data_feed/venue/l2_parser.cc:106-142 | every run of the manager feeds every stream as the above assumes: its receiver's log never tells it an update first or after a gap, and carries only checksums its replay has |
| `Replica.LagHappens` | data_feed/frontend/stream.cc:94-106 | a run in which a client that read one frame has an empty book and the stream it watches has not |
| `Replica.SwitchingCanClear` | data_feed/frontend/server.cc:523-547 | a run of two streams in which a client switches, every frame arrives, nothing is under way, and its book is empty where its stream's is not |
| `RecordingSpec.FirstFree` | data_feed/l2/file_writer.cc:40-46 | for any finite set of taken names there is a first free final name |
| `RecordingSpec.FinalNamesDiffer` | data_feed/l2/file_writer.cc:40-46 | the names tried are all different |
| `RecordingSpec.StretchesPartition` | data_feed/l2/file_writer.h:34-40 | the stretches are nonempty, hold every message once in order, and begin exactly where the stream starts or starts over |
| `RecordingSpec.StretchesStartWithSnapshots` | data_feed/l2/file_writer.h:35-38 | if the stream starts, and resumes after every gap, with a snapshot, so does every file |
| `RecordingSpec.RecordingsReplayAlone` | data_feed/l2/file_writer.h:35-38 | in every run of the manager a receiver's log is such a stream, so each file of a recording can be replayed on its own |
| `RecordingSpec.ConsumeIsValid` | data_feed/l2/file_writer.cc:84-96 | every entry keeps the files equal to the stretches so far, and every other file but those under a name this writer opened |
| `RecordingSpec.RecordingIsSegmented` | data_feed/l2/file_writer.cc:84-138 | the files left are exactly the stream's gap-free stretches in order, one each, under distinct names, or a single one without messages; no further file is added to the directory, and none that was there is touched but under the stem and the second of the recording's start or of the stream's start after a gap |
| `RecordingSpec.FilesTellTheirStart` | data_feed/l2/file_writer.cc:98-116 | each file left has in its header the time it was opened, the recording's start or that of its stretch's first message, and is named after the pair and that second |
| `RecordingSpec.ClosedFilesAreFinal` | data_feed/l2/file_writer.cc:129-138 | a file once closed keeps its name and content whatever is recorded later |
| `FileWriters.FileWriter.Consume` | data_feed/l2/file_writer.cc:84-96 | the object's new state is the specified Consume of its old one, and the invariant stays |
| `FileWriters.FileWriter.Open` | data_feed/l2/file_writer.cc:98-116 | a file named by the start second, holding only a header |
| `FileWriters.FileWriter.Write` | data_feed/l2/file_writer.cc:118-127 | one more record in the open file |
| `FileWriters.FileWriter.Close` | data_feed/l2/file_writer.cc:129-138 | the open file moves to its final name; nothing if none is open |
| `FileWriters.FileWriter.FinalPath` | data_feed/l2/file_writer.cc:40-46 | the search ends, with the first free name |
| `Recordings.WritingAppends` | data_feed/l2/file_writer.cc:98-127 | a new file's bytes are its header, and writing a message appends exactly its record |
| `Recordings.FilesReadBack` | data_feed/l2/file_writer.h:34-40 | in every recording, the bytes of each file left read back as a header with the pair's depth, precisions and names and the file's own start, and as its stretch, without symbols |
| `Recordings.OpenFileReadsBack` | data_feed/l2/file_header.h:15-20 | at any time, the open file cut anywhere reads back as the header and the whole records of the stretch being recorded, or as no file if the header is cut |
| `RecordSpec.Record` | data_feed/l2/message.h:23-33 | a record takes GetByteSize bytes |
| `RecordSpec.RecordLayout` | data_feed/l2/message.h:23-28 | type, checksum, both times and the buys' byte count at bytes 0, 4, 8, 16 and 24, little-endian |
| `RecordSpec.LevelLayout` | data_feed/l2/message.h:16-28 | level k of a side is its price and then its quantity, at sixteen times k bytes |
| `RecordSpec.HeaderLayout` | data_feed/l2/file_header.h:21-47 | the 64 bytes of a header: the magic, version, depth, both precisions, start and both texts, at their offsets |
| `LittleEndian.LowestFirst` | data_feed/l2/message.h:23-28 | byte k of a number written is its digit k to base 256 |
| `RecordSpec.TakesRecord` | data_feed/l2/message.h:23-33 | a reader of the layout gets the message back, minus its symbol, and what follows it |
| `RecordSpec.CutRecordIsShort` | data_feed/l2/message.h:23-33 | a record cut anywhere is not read at all |
| `RecordSpec.RecordsReadBack` | data_feed/l2/message.cc:47-61 | concatenated records read back as the messages written |
| `RecordSpec.CutFileReadsBack` | data_feed/l2/file_header.h:15-20 | a recording cut anywhere past its header reads back the header and every whole record before the cut, and nothing else |
| `RecordSpec.RecordingDescribesItself` | data_feed/l2/file_header.cc:25-37 | a whole recording reads back its version, depth, precisions, start, venue, symbol and messages |
| `RecordSpec.TextReadsBack` | data_feed/l2/file_header.h:30-34 | a text of up to 16 bytes reads back whole, a longer one cut |
| `RecordSpec.LevelsAreAligned` | data_feed/l2/message.h:23-28 | every level array of a file starts on a multiple of eight bytes |
| `RecordSpec.LevelsAreThere` | data_feed/l2/message.h:23-28 | and holds that record's levels |
| `RecordWriter.WriteValue` | data_feed/l2/message.cc:20-37 | writes the little-endian bytes at the front of the rest, nothing else, and advances past them |
| `RecordWriter.WriteSide` | data_feed/l2/message.cc:39-43 | writes the byte count and the levels, nothing else |
| `RecordWriter.Serialize` | data_feed/l2/message.cc:47-61 | writes exactly GetByteSize bytes, the record, and leaves the rest of the buffer unchanged; refuses a buffer too small, unchanged |
| `RecordWriter.ToFixedText` | data_feed/l2/file_header.cc:14-21 | the text cut to 16 bytes or zero padded |
| `Envelope.WriteVarint` | data_feed/frontend/wire.cc:121-129 | appends the base-128 varint of the number |
| `Envelope.FrameHeader` | data_feed/frontend/wire.cc:114-131 | appends sequence, send time and payload header in order |
| `Envelope.TakesVarint` | data_feed/frontend/wire.cc:121-129 | reading a varint gives the number back, however many bytes it took |
| `Envelope.VarintBytes` | data_feed/frontend/wire.cc:121-129 | byte k of a varint is digit k to base 128, with the high bit on all but the last |
| `Envelope.FrameLayout` | data_feed/frontend/wire.cc:114-131 | a frame is the sequence behind tag 0x08, the time behind 0x11, and the payload behind its field number and its length |
| `Envelope.FrameParsesBack` | data_feed/frontend/wire.cc:114-135 | for every u64 sequence and i64 time, parsing a frame gives back its sequence, time, field number and payload if and only if the payload is under 2^32 bytes |
| `Spsc.NothingIsLostOrReordered` | data_feed/core/spsc.h:14-43 | in every interleaving, what was consumed followed by what is queued is what was pushed, in order |
| `Spsc.DrainEmpties` | data_feed/core/spsc.h:24-43 | Drain returns only once everything pushed before the stop was consumed |
| `Spsc.PushesUntilGivenUp` | data_feed/core/spsc.h:14-22 | until told to give up, PushBlocking drops nothing |
| `Spsc.PushFinishes` | data_feed/core/spsc.h:14-22 | a push succeeds at once unless the queue is full, and then after the consumer's own next steps |
| `Spsc.DrainFinishes` | data_feed/core/spsc.h:24-43 | once the stop is requested, Drain's own steps consume everything pushed and return |
| `Spsc.ThrowingKeepsTheRest` | data_feed/core/spsc.h:33-42 | if the consumer throws, the failing value and all pushed after it stay queued |
| `Spsc.OrderOfReadsMatters` | data_feed/core/spsc.h:34 | reading availability before the stop would lose a value, in a run given |
| `Aggregator.NoSampleIsLost` | data_feed/timing/aggregator.cc:93-106 | in every interleaving each thread's samples are written once, in order, or still queued; a producer is erased only when its thread has exited and its queue is empty |
| `Aggregator.QuietStopAccountsForAll` | data_feed/timing/aggregator.cc:74-91 | if no thread is inside Record when the stop is requested, lines written plus the reported drops are the samples recorded |
| `Aggregator.OnlyFullQueuesDrop` | data_feed/timing/aggregator.cc:54-62 | in every interleaving a thread's samples are queued in order unless its queue is full, and exactly the others are counted dropped |
| `Aggregator.StopFinishes` | data_feed/timing/aggregator.cc:74-91 | once the stop is requested, the writer's own steps write everything queued, report the drops and end |
| `Aggregator.OrderOfReadsMatters` | data_feed/timing/aggregator.cc:95-105 | draining before reading retirement would erase a producer holding a sample, in a run given |

## Left out

- Sockets, TLS, websockets, timers, REST requests and JSON: frames and texts arrive parsed, and a write or read ends well or badly as the environment likes. A missing or mistyped JSON field throws in the source; here a frame has its fields.
- `kraken/l2_decoder.cc`, whose work is JSON; the parser takes any messages, so nothing is assumed of them.
- Protobuf's generated code for the payloads; a payload is an opaque run of bytes in `Envelope` and a value in `Stream`.
- I/O failures of a recording: a failed write marks the writer failed and drops what follows.
- Several writers in one directory. Two pairs whose names differ only in where their slash is share a stem.
- Weak memory: interleavings are sequentially consistent.
- `ListPairs` and its cache, the supervisor's backoff, depth and symbol checks, enum mappings, error texts, logging, `core/unix_time.cc`: easy, or not decisive.
- L2Manager.TableRoutesAndVenueAgree: properties of runs are proved of a step system, as client threads, the supervisor, the parser and the resubscriber interleave between the manager's updates; a step is what one thread does without giving up the lock it needs. It does not model which existing recording's id a duplicate Subscribe returns.
- L2Managers.Manager.Resubscribe: the wait in ResubscribeQueued around it is the steps Pop, Tick and NoteResubscribed, not a loop.
- L2Manager.IdsStayFresh: the Router's counter is unbounded, so it does not model its wrap after 2^64 calls.
- `Outbox::Watch` and `Outbox::Unwatch`, which look a stream up and call it; the registry is the set of live ids in use.
- L2Manager.ReceiverLogsAreWellFormed: routes hold books as values; the in-place book is `Books.Book`.
- SessionSpec.WireIsInOrder: numbers are unbounded, so it does not model the wrap of `next_sequence_` after 2^64 frames.
- Sessions.Session.Close: does not model forgetting the session on the command strand.
- Streams.Stream.Watch: the part sent before the watcher is added is its own method, `CatchUp`, as are the two halves of Receive.
- Replica.ReplicaAgrees: one client and any number of streams; a stream that has ended is one no longer fed, and a Watch of an id without a stream changes nothing but its result. The second half of a Watch waits for the old stream's lock, as does an Unwatch, and the command's result is one of the payloads offered at any time.
- CrcBits.ShiftOut: the table's inner loop, as a method of its own.
- Decimals.ScalingIsExact: for nonnegative texts without exponent; a minus sign and its effect on the fraction are computed as the source does but no property is stated of them.
- CoinbaseSpec.ReadsExactlyWhatFits: likewise for nonnegative texts.
- Lossy.BookSurvivesNetwork: what a text that is no decimal, such as one with an exponent, is read as has no meaning to compare with.
- FileWriters.FileWriter.Consume: does not model the queue in front of it, which is `Spsc`, nor the `int` range of the numbers `FinalPath` tries, nor clocks set before 1970.
- RecordSpec.RecordLayout: the source writes native byte order; a little-endian machine is assumed.
- RecordWriter.WriteSide: levels are written one by one where the source copies a side at once.
- Spsc.NothingIsLostOrReordered: both spin loops are steps of one system, not methods, as the other thread acts between any two of them; the queue itself is a bounded sequence.
- Aggregator.QuietStopAccountsForAll: recorders, exits and the writer are steps of one system, not methods, as they interleave inside a pass; one Start and Stop; samples pushed after a stop that was not quiet are left for the next file.
