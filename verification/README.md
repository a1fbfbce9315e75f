# Verified models of the RazorSharp client protocols and scripts

The project models the parts of RazorSharp in which a mistake is expensive and hard to see: the
client side of payments, carts and refunds over a network that loses answers, the voice session,
the payment provider's modal, and a few small algorithms and scripts around them. Each is written
in the form the original has (a class with its fields, a closure, a loop over a buffer, a recursive
translation) and proved against a specification that stands on its own.

| file | what it models |
|---|---|
| `mic_frames.dfy` | the microphone worklet: resampling with a fractional carry, and cutting into frames |
| `wire_types.dfy`, `wire_text.dfy` | the JSON-Schema to TypeScript generator, as a translation and as text |
| `idempotency.dfy` | the backend's idempotency record and the network in front of it |
| `durable_cart.dfy`, `cart_steps.dfy` | the serialised cart writer |
| `reserve_intent.dfy`, `reserve_steps.dfy` | Reserve Pay's stored payment intent |
| `reserve_storage.dfy` | the same page on a tab whose storage may fail |
| `merchant_refund.dfy` | the refund panel's stored approval |
| `basket_signature.dfy`, `authoritative_bill.dfy`, `bill_steps.dfy` | the basket's signature, and building one bill for each basket |
| `voice_session.dfy` | connections, reconnection and typed turns of the voice session |
| `provider_modal.dfy` | opening the Razorpay modal |
| `chat_history.dfy` | the saved chats |
| `manual_approval.dfy`, `approval_steps.dfy` | approving a bill for manual payment |
| `settlement.dfy` | waiting for a manual payment to settle |
| `refund_amount.dfy` | the refund amount a merchant types |
| `trust_inventory.dfy` | provisioning the pinned signing keys |
| `demo_seeder.dfy`, `seeder_steps.dfy` | seeding the demo state |
| `recovery_read.dfy` | the recovery read that retries |
| `common.dfy`, `runs.dfy`, `decimals.dfy`, `json_value.dfy` | what several of them share |

**Shape of the protocol models.** A module defines a value for the whole system (the client, the
tab's storage, the backend, and a history where a property needs one), an event for everything that
can happen, `Next` for one event and `RunAll` for a run. `Inv` is the invariant, `NextKeepsInv`
proves it for every event, `RunKeepsInv` for every run, and the readable theorems follow. Beside it
a class holds the original's fields, and each of its methods is proved to do exactly one `Next`. What
one `Next` does, in the fields themselves and without the functions it is made of, is said by lemmas of
their own (in the `_steps` files where there are many).
The clock, randomness, storage failures, what the network does to a request, and what the backend
decides are parameters of the events. Keys are numbers minted in order, so two keys are equal only
when they are the same key.

**What the proofs found.** Where a documented promise does not hold of the code, the code is kept
and the exact condition is proved:

- The resampler reads flat past the end of a block, so at a ratio that is not whole the output
  depends on how the stream is cut (`OutputIsInterpolation`, `BlocksCanBeHeard`).
- A record type is unsound exactly as far as `patternProperties` reach past it, a definition shared
  by the two sides exactly as far as its two meanings differ (`FileIsSoundIff`), and a reference to a
  definition reads back exactly if its name is not a word the printed language uses itself.
- `durable-cart.ts:91-92` says that a client refusal did not mutate. That holds of a first send. A
  refusal that precedes the idempotency record may come after a lost answer, for example the 429 of a
  session that cannot be renewed (`browser_mount.py:165-168`): then the change is dropped and applied
  (`RefusedMeansUnappliedIff`, `BarredRetryForgets`). The refund panel has the same gap: while the demo
  is switched off the mount answers 404 before anything else (`browser_mount.py:52-54`), and a session
  that expires between the mount's check (`:142`) and the route's (`deps.py:413-414`) is answered 401.
- Reserve's `savePending` ignores a refused write and a mount ignores a refused read; over an unresolved
  payment either lets a second one start, and nothing else does (`SendsBesideIff`). The refund panel
  does not ignore the write: it throws before anything is sent.
- A voice connection whose ticket is refused is never closed; it keeps the audio output it primed
  (`LeaksIff`).
- A bill that is replayed under a held key belongs to a checkout that is no longer resumable
  (`ShownIsLiveIff`); a checkout that is sent back for approval after the same basket was built again
  leaves it two resumable ones (`ReapprovalDoublesCheckout`). An answer that something cannot be fulfilled
  is replayed too: building the same basket again cannot succeed under the held keys (`UndisturbedBuildEnds`).
- From 7 036 874 417 766 400 minor units on, some maxima are printed one minor unit off, such as
  7036874417766599 (`PrintsExactlyIff`).
- `manual-pay.ts:142-163` tells an approval that started no payment from one that did, but by the
  checkout: with a failed payment of an earlier version the client goes on
  (`DuplicateMisleadsIff`, `RefusedVersionContinues`). Losing the retry keys is harmless only while an
  attempt is live or the version stands approved (`LostKeyIsHarmlessIff`).
- A basket that names a SKU twice gets a second checkout (the hook takes any list; the review screen,
  its one caller, names one line for each product, `order-review.tsx:45`); a SKU that carries a printed
  line and the separator collides (`BarInSkuCollides`).
- A shared or refused open of the provider modal uncovers every neutralised container
  (`OneInteractiveIff`); a window timer armed after a synchronous outcome is never cleared.
- Merging two histories can drop the active chat (`MergeIsValidIff`).
- Cancelling a recovery read from inside `onError` leaves one retry armed, and an `onError` that
  throws stops the retries.

## Model

| member | source | states |
|---|---|---|
| `MicFrames.QuantiseNeverWraps` | apps/razorsharp-concept/public/voice-mic-worklet.js:54-57 | For every pair of ordered samples the stored 16-bit values are ordered and in range, and everything beyond full scale saturates: clamping before scaling means no sample ever wraps |
| `MicFrames.QuantiseIsWithinOneStep` | apps/razorsharp-concept/public/voice-mic-worklet.js:54-57 | A sample within full scale is stored as itself at 32767 steps above zero and 32768 below, short of it by less than one step towards zero; a sample beyond is stored as full scale |
| `MicFrames.OutputCountIsExact` | apps/razorsharp-concept/public/voice-mic-worklet.js:32-43 | For every ratio and every way of cutting the stream into blocks, output k exists exactly when k * ratio lies inside what has been received |
| `MicFrames.Outs` | apps/razorsharp-concept/public/voice-mic-worklet.js:41-43 | After any blocks with T samples and N outputs, 0 <= N * ratio - T < ratio: the carry never drifts |
| `MicFrames.OutputPosition` | apps/razorsharp-concept/public/voice-mic-worklet.js:34-40 | Output k is the reading at global position k * ratio of the whole stream, whatever the block boundaries, with the right neighbour missing only where a block ends there |
| `MicFrames.OutputIsInterpolation` | apps/razorsharp-concept/public/voice-mic-worklet.js:37-39 | An output equals the linear interpolation of the unbroken signal if and only if it falls on a sample, its neighbour is in the same block or does not exist, or that neighbour is equal |
| `MicFrames.OutputIsWeightedMean` | apps/razorsharp-concept/public/voice-mic-worklet.js:34-40 | In the samples themselves: at position x = k * ratio between samples i and i + 1, output k is their mean weighted by how far x is from each, and sample i alone where a block ends with it |
| `MicFrames.BlocksCanBeHeard` | apps/razorsharp-concept/public/voice-mic-worklet.js:38 | One signal delivered in two ways gives two different outputs at ratio 1.5 |
| `MicFrames.WholeRatioSubsamples` | apps/razorsharp-concept/public/voice-mic-worklet.js:34-43 | With a whole ratio m, output k is input k * m |
| `MicFrames.WholeRatioIgnoresBlocks` | apps/razorsharp-concept/public/voice-mic-worklet.js:34-43 | With a whole ratio the output does not depend on how the stream was cut into blocks |
| `MicFrames.AllocationFits` | apps/razorsharp-concept/public/voice-mic-worklet.js:32 | The size allocated in advance is never negative and is larger than the index of every write the loop makes |
| `MicFrames.RestIsEnough` | apps/razorsharp-concept/public/voice-mic-worklet.js:46-62 | Cutting a + b into frames is cutting a and then what is left of it followed by b: keeping only the remainder between blocks loses nothing |
| `MicFrames.FramesConserve` | apps/razorsharp-concept/public/voice-mic-worklet.js:50-62 | Posted frames followed by the quantised remainder are the quantised signal; every frame is full and holds 16-bit values; the remainder is shorter than a frame |
| `MicFrames.FrameSample` | apps/razorsharp-concept/public/voice-mic-worklet.js:51-60 | Frame k, position i is sample k * frame + i, and frame k is posted exactly when that many samples have arrived |
| `MicFrames.WholeRatioFrames` | apps/razorsharp-concept/public/voice-mic-worklet.js:27-62 | With a whole ratio m, posted frame k, position i is the quantised input (k * frame + i) * m however the input was delivered |
| `MicFrames.UnitRatioIsIdentity` | apps/razorsharp-concept/public/voice-mic-worklet.js:29-30 | The shortcut for ratio 1 yields what the loop would |
| `MicFrames.UnitRatioHasNoCarry` | apps/razorsharp-concept/public/voice-mic-worklet.js:29-30 | At ratio 1 the carry is always zero, so the shortcut may ignore it |
| `MicFrames.MicFrameProcessor.constructor` | apps/razorsharp-concept/public/voice-mic-worklet.js:13-21 | A new processor has received nothing, posted nothing and carries nothing |
| `MicFrames.MicFrameProcessor.Resample` | apps/razorsharp-concept/public/voice-mic-worklet.js:28-44 | The loop over one block fills a fresh array with exactly the readings at carry, carry + ratio, ... and leaves the exact carry |
| `MicFrames.MicFrameProcessor.Process` | apps/razorsharp-concept/public/voice-mic-worklet.js:23-64 | After any calls the carry, the posted frames and the pending samples are those of the whole stream received so far; an input without a channel changes nothing |
| `MicFrames.MicFrameProcessor.Merge` | apps/razorsharp-concept/public/voice-mic-worklet.js:46-48 | The merged buffer is the pending samples followed by the new ones |
| `MicFrames.MicFrameProcessor.CutFrames` | apps/razorsharp-concept/public/voice-mic-worklet.js:50-62 | The loop posts every full frame of the merged buffer and keeps what is left |
| `MicFrames.MicFrameProcessor.QuantiseFrame` | apps/razorsharp-concept/public/voice-mic-worklet.js:52-58 | The inner loop fills one frame with the quantised samples from the offset |
| `WireTypes.TypeIsSound` | scripts/generate_voice_wire.py:16-49 | Every JSON value a schema accepts that carries the declared properties, along branches of its unions that accept it, inhabits the generated type, through nested arrays, records, unions and any number of unfoldings of recursive references, whatever the ignored keywords demand |
| `WireTypes.ObjectIsSound` | scripts/generate_voice_wire.py:29-42 | The object case: declared properties, additional properties and records |
| `WireTypes.TypeIsExact` | scripts/generate_voice_wire.py:16-49 | On schemas that TypeScript can express the translation loses nothing: the type has exactly the values that the schema accepts and that carry what is declared |
| `WireTypes.TypeNamesMean` | scripts/generate_voice_wire.py:43-48 | What the names of types accept: exactly the whole numbers are integers, and every other name is that of one kind of value |
| `WireTypes.ReferenceIsLastSegment` | scripts/generate_voice_wire.py:17-18 | Whatever path leads there, a reference translates to the name after its last slash |
| `WireTypes.ReferenceIsItsDefinition` | scripts/generate_voice_wire.py:17-18 | So a reference to a definition is the alias of that definition and has exactly its members |
| `WireTypes.MissingPropertyIsLost` | scripts/generate_voice_wire.py:31-36 | A value without a declared property is accepted by the schema and refused by the type |
| `WireTypes.RecordIsSoundIff` | scripts/generate_voice_wire.py:37-42 | A value that fits the schema of a record inhabits the record if and only if what it has under the names matched by patternProperties does |
| `WireTypes.PatternedRecordIsUnsound` | scripts/generate_voice_wire.py:37-42 | For every record schema, every name one of its patterns matches and every value outside the type of additionalProperties, that value under that name is accepted and does not inhabit the type |
| `WireTypes.PatternedRecordIsUnsoundIff` | scripts/generate_voice_wire.py:37-42 | A record type is unsound if and only if there is such a name and such a value |
| `WireTypes.MoreAliasesKeepMembers` | scripts/generate_voice_wire.py:55-64 | Adding definitions never removes a value from a type |
| `WireTypes.ServerFrameIsSound` | scripts/generate_voice_wire.py:52-67 | A valid server frame inhabits its printed type next to the merged definitions, provided the two sides do not share a name for two schemas |
| `WireTypes.SoundWhereNamesAre` | scripts/generate_voice_wire.py:16-49 | A type is sound in a printed file as soon as the aliases it names are, whatever else the file holds |
| `WireTypes.SharedNameIsUnsound` | scripts/generate_voice_wire.py:55 | For every pair of definitions under one name, a value that the server's accepts and the client's type refuses makes a reference to that name refuse a valid server frame |
| `WireTypes.FileIsSoundIff` | scripts/generate_voice_wire.py:52-67 | Every valid server frame that carries what is declared inhabits its type in the merged file if and only if, for each shared name, everything that fits the server's definition inhabits the client's type |
| `WireText.FlatteningKeepsMembers` | scripts/generate_voice_wire.py:22-25 | Laying nested unions flat changes no type's values |
| `WireText.TextIsFlat` | scripts/generate_voice_wire.py:16-49 | The printed text of a schema is the text of its flattened alternatives |
| `WireText.TextParsesBack` | scripts/generate_voice_wire.py:16-49 | A parser for the printed language reads every generated text back to the flattened type tree with nothing left over |
| `WireText.TextDeterminesMembers` | scripts/generate_voice_wire.py:21-42 | Two schemas printed alike have the same values: the unparenthesised union joins are safe |
| `WireText.NameReadsBackIff` | scripts/generate_voice_wire.py:17-18 | For every name of name characters that does not start with a digit, the printed reference reads back as a reference if and only if the name is not one of the seven words the printed language uses itself |
| `WireText.ReferenceIsPrintedAsName` | scripts/generate_voice_wire.py:17-18 | A reference to a definition is printed as the name of that definition |
| `Idempotency.SendKeepsOnce` | packages/transaction-kernel/src/transaction_kernel/idempotency.py:493-561 | Whatever is delivered, under whatever key and however often, no key runs twice, the record commits with its effect, a refusal leaves the server as it was, and an answer is the recorded one for that request |
| `Idempotency.RecordsStay` | packages/transaction-kernel/src/transaction_kernel/idempotency.py:320-341 | A record is never changed or dropped; a later use of its key runs nothing, and is answered from the record for the same request and refused for another |
| `DurableCart.NextKeepsInv` | apps/razorsharp-concept/lib/durable-cart.ts:23-113 | Every step (calls queued or begun, answers arriving or lost, other writers) keeps: no key runs twice, one key at a time is on the wire, what ran under a key is what was asked under it |
| `DurableCart.AskedIsCalled` | apps/razorsharp-concept/lib/durable-cart.ts:45-71 | A step asks for something under a key only if the call at the head of the queue is a change; what it asks is the SKU of the call, its delta, the quantity and binding of its proposal, and the quantity the cart holds as it is read |
| `DurableCart.SuitableChangeIsAsked` | apps/razorsharp-concept/lib/durable-cart.ts:45-71 | Every change by a whole number other than nought that has a cart, an answer to its read and no unsuitable proposal is asked for |
| `DurableCart.QueueIsTheRest` | apps/razorsharp-concept/lib/durable-cart.ts:23-27 | Over any run the queue is what is left of the calls in the order in which they were made |
| `DurableCart.EachCallIsExact` | apps/razorsharp-concept/lib/durable-cart.ts:45-75 | Over any run without another writer, the line writes that take effect are those of different calls of change in the order of the calls, each to its call's SKU, and each leaves the line at the absolute quantity of the call or at what the line holds at that moment with the call's delta, not below zero |
| `DurableCart.EachChangeAtMostOnce` | apps/razorsharp-concept/lib/durable-cart.ts:23-113 | Over any run each change takes effect at most once, and cart writes go out key by key: a key and its retries before the next |
| `DurableCart.AnsweredMeansApplied` | apps/razorsharp-concept/lib/durable-cart.ts:76-89 | An answer means the change is applied, with the exact quantity of the pending operation |
| `DurableCart.OnlyPendingIsSent` | apps/razorsharp-concept/lib/durable-cart.ts:33-75 | While a write is pending no other request of the client, the creation of a cart included, changes anything at the backend |
| `DurableCart.FirstRefusalIsDefinite` | apps/razorsharp-concept/lib/durable-cart.ts:90-96 | A refusal of the first send of a write means it was not applied, whoever refused it |
| `DurableCart.AppliedIff` | apps/razorsharp-concept/lib/durable-cart.ts:76-97 | Over any run a change has taken effect if and only if a send of it was answered, or was carried to the backend and only its answer lost |
| `DurableCart.RefusedMeansUnappliedIff` | apps/razorsharp-concept/lib/durable-cart.ts:90-96 | In any run a refusal means the change was not applied if and only if no earlier send of the same write was carried there with its answer lost; if one was, the refusal came from ahead of the record |
| `DurableCart.ForgetsExactly` | apps/razorsharp-concept/lib/durable-cart.ts:76-97 | A step makes the client forget a change that took effect if and only if it resends one whose answer was lost and takes a refusal from ahead of the record |
| `DurableCart.BenignRunForgetsNothing` | apps/razorsharp-concept/lib/durable-cart.ts:76-97 | In a run without such a refusal every change that took effect was answered or is the one pending |
| `DurableCart.BarredRetryForgets` | apps/razorsharp-concept/lib/durable-cart.ts:91-96 | A change, a lost answer and a barred retry: the client drops the change as refused and the cart holds it |
| `DurableCart.RetryRecovers` | apps/razorsharp-concept/lib/durable-cart.ts:98-104 | A retry that gets through after a lost answer returns the recorded answer and changes nothing at the backend |
| `DurableCart.SingleWriterIsExact` | apps/razorsharp-concept/lib/durable-cart.ts:62-73 | With a single writer every change that takes effect, at once or through any retries, writes what the request meant for the quantity held at that very moment, max(0, held + delta) |
| `DurableCart.WriteIsRightIff` | apps/razorsharp-concept/lib/durable-cart.ts:62-73 | Beside other writers an applied change is right exactly when the line still holds what was read when the change was made, or the target does not depend on it |
| `DurableCart.DurableCart.constructor` | apps/razorsharp-concept/lib/durable-cart.ts:6-17 | A new cart has no cart, no pending write and a creation key of its own |
| `DurableCart.DurableCart.Serialize` | apps/razorsharp-concept/lib/durable-cart.ts:23-27 | A call joins the end of the queue |
| `DurableCart.DurableCart.CreateEmptyCart` | apps/razorsharp-concept/lib/durable-cart.ts:28-32 | The creation key is replaced only when the creation answered |
| `DurableCart.DurableCart.RestoreNow` | apps/razorsharp-concept/lib/durable-cart.ts:33-44 | Restoring adopts the current cart, leaves an earlier checkout alone, else creates; nothing happens while a write is pending |
| `DurableCart.DurableCart.HaveCart` | apps/razorsharp-concept/lib/durable-cart.ts:50-53 | A change first makes sure there is a cart |
| `DurableCart.DurableCart.ChangeNow` | apps/razorsharp-concept/lib/durable-cart.ts:45-75 | A change reads the cart, refuses a proposal for another cart or a blocked one, and pends one absolute write under a new key |
| `DurableCart.DurableCart.RetryNow` | apps/razorsharp-concept/lib/durable-cart.ts:98-104 | A retry sends the pending write unchanged |
| `DurableCart.DurableCart.NewCartNow` | apps/razorsharp-concept/lib/durable-cart.ts:105-113 | A new cart keeps its key until the creation answers; nothing happens while a write is pending |
| `DurableCart.DurableCart.Begin` | apps/razorsharp-concept/lib/durable-cart.ts:23-27 | Calls run one after the other, in order |
| `DurableCart.DurableCart.Arrive` | apps/razorsharp-concept/lib/durable-cart.ts:76-97 | The pending write is dropped by an answer or a 4xx and kept by anything else |
| `CartSteps.LineWriteIs` | packages/commerce-api/src/commerce_api/services/cart_service.py:600-701 | A line write under a new key is made, and answered with the whole cart, if and only if the cart is known and the quantity is from 0 to 99: that line has exactly that quantity, nought takes it away, every other line and cart is as it was |
| `CartSteps.CreationIs` | packages/commerce-api/src/commerce_api/services/cart_service.py:355-378 | A creation under a new key makes one new cart with nothing in it |
| `CartSteps.OtherDeliveriesAre` | packages/transaction-kernel/src/transaction_kernel/idempotency.py:493-561 | A used key brings its answer back and does nothing, a request that is not let in does nothing, and what one that is does is the same whether or not its answer is heard |
| `CartSteps.RestoreIs` | apps/razorsharp-concept/lib/durable-cart.ts:33-44 | What restoring leaves for every answer to its reads: the open cart, no cart beside an earlier checkout, a new one, or all as it was |
| `CartSteps.EnsureIs` | apps/razorsharp-concept/lib/durable-cart.ts:50-53 | The cart a change works on: the one held, the open one, or a new one, created under the held key, which is spent only by an answer |
| `CartSteps.NewCartIs` | apps/razorsharp-concept/lib/durable-cart.ts:105-113 | A new cart is asked for under one key until it is answered, and that key is gone then |
| `CartSteps.ChangeIs` | apps/razorsharp-concept/lib/durable-cart.ts:45-75 | Which changes make no write, and what the cart is then; every other makes one pending write to the cart as it is read, of the proposal's quantity or of the line's with the change, not below nought, bound to the proposal |
| `CartSteps.WriteEnds` | apps/razorsharp-concept/lib/durable-cart.ts:76-97 | How a pending write ends for every outcome: an answer becomes the cart, a definite refusal leaves it, anything else keeps the write |
| `CartSteps.ElsewhereIs` | packages/commerce-api/src/commerce_api/services/cart_service.py:600-701 | A write of somebody else does at the backend what it would under any new key, and nothing to the client |
| `CartSteps.ChangeCompletes` | apps/razorsharp-concept/lib/durable-cart.ts:45-97 | From every reachable state a change of the cart at hand that gets through leaves nothing pending and the cart written and shown with the line at its quantity and the change, or untouched where that is more than 99 |
| `ReserveIntent.NextKeepsInv` | apps/razorsharp-concept/components/reserve-checkout.tsx:24-51 | Every mount, submit, click, answer, poll, reload and backend step keeps: whatever attempt is unresolved is the newest and belongs to the stored intent |
| `ReserveIntent.OneUnresolvedPayment` | apps/razorsharp-concept/components/reserve-checkout.tsx:24-51 | Over any run in which the tab storage works two attempts are never both unresolved, the unresolved one is the stored intent's, and an unrecorded request in flight is stored |
| `ReserveIntent.NewKeyOnlyWhenResolved` | apps/razorsharp-concept/components/reserve-checkout.tsx:35-36 | A new key is minted only when every earlier attempt is resolved |
| `ReserveIntent.RetryRecovers` | apps/razorsharp-concept/components/reserve-checkout.tsx:35-40 | Sending a stored intent again recovers the recorded answer and starts nothing |
| `ReserveIntent.ClickIsSpent` | apps/razorsharp-concept/components/reserve-checkout.tsx:43-51 | A click is consumed once whatever comes of it, and never sends while an intent is being recovered |
| `ReserveIntent.SettledIff` | apps/razorsharp-concept/lib/reserve-recovery.ts:5-12 | A checkout is settled if and only if its last attempt was captured and has its order, or failed or expired with its capacity released |
| `ReserveIntent.MountDropsWherePollDoes` | apps/razorsharp-concept/components/reserve-checkout.tsx:24-34 | For the newest attempt of the stored checkout, not yet reported, a mount drops the intent exactly if a poll of that attempt would |
| `ReserveStorage.SendsBesideIff` | apps/razorsharp-concept/components/reserve-checkout.tsx:15-36 | After any run, storage failing or not, in which no request went out beside an unresolved payment, one goes out if and only if the page was mounted over that payment without reading its intent back: the read was refused, or every write of the intent had been |
| `ReserveStorage.CleanMeansOneUnresolved` | apps/razorsharp-concept/components/reserve-checkout.tsx:24-51 | Until a request goes out beside an unresolved payment two attempts are never both unresolved |
| `ReserveStorage.BesideDoubles` | apps/razorsharp-concept/components/reserve-checkout.tsx:35-40 | When one does, an admission is all it takes for two unresolved attempts |
| `ReserveStorage.WorkingStorageIsClean` | apps/razorsharp-concept/components/reserve-checkout.tsx:15-25 | Over any run in which storage works no request goes out beside an unresolved payment |
| `ReserveStorage.StoredIffWritten` | apps/razorsharp-concept/components/reserve-checkout.tsx:15-39 | Until a request goes out beside an unresolved payment, what is stored was written, and an intent that was written is stored or nothing is owed to it |
| `ReserveStorage.DroppedOnlyWhenDone` | apps/razorsharp-concept/components/reserve-checkout.tsx:31-39 | An intent leaves storage only when it was denied, its attempt is captured with its order or failed with its capacity released, or it never reached the backend and no page holds it |
| `ReserveStorage.RefusedStorageDoublesPayment` | apps/razorsharp-concept/components/reserve-checkout.tsx:15-36 | With a refused write and a reload two payments are live at once, under two keys |
| `ReserveStorage.UnreadableStorageDoublesPayment` | apps/razorsharp-concept/components/reserve-checkout.tsx:24-36 | So they are when every write succeeded and the reload cannot read |
| `ReserveIntent.SettledIsSafe` | apps/razorsharp-concept/lib/reserve-recovery.ts:5-12 | While storage works the discard at mount is safe: when the newest attempt of the stored checkout is resolved every attempt is |
| `ReserveStorage.SettledIsRight` | apps/razorsharp-concept/lib/reserve-recovery.ts:5-12 | With failing storage too, until a request goes out beside an unresolved payment, a settled checkout has no unresolved attempt |
| `ReserveStorage.SettledCanHideAnAttempt` | apps/razorsharp-concept/lib/reserve-recovery.ts:8-11 | After that it is not: a run in which the newest attempt is settled, an older one of the same checkout still holds capacity, and the next mount drops its intent |
| `ReserveIntent.ReserveCheckout.SavePending` | apps/razorsharp-concept/components/reserve-checkout.tsx:15 | Storage holds the new value exactly when the write succeeds |
| `ReserveIntent.ReserveCheckout.MountView` | apps/razorsharp-concept/components/reserve-checkout.tsx:24-30 | Mounting recovers a stored intent of the reviewed bill, discards a settled one, and shows the bill only when nothing is stored |
| `ReserveIntent.ReserveCheckout.SubmitIntent` | apps/razorsharp-concept/components/reserve-checkout.tsx:35-36 | Submitting resends the pending intent or mints one, storing it before it is sent |
| `ReserveIntent.ReserveCheckout.CommitRequest` | apps/razorsharp-concept/components/reserve-checkout.tsx:43-51 | A click number is spent first and submits only a clean, unchanged bill |
| `ReserveIntent.ReserveCheckout.Answer` | apps/razorsharp-concept/components/reserve-checkout.tsx:37-40 | An admitted or duplicate answer keeps the intent with its attempt, a denial drops it, anything else keeps it |
| `ReserveIntent.ReserveCheckout.PollStatus` | apps/razorsharp-concept/components/reserve-checkout.tsx:31-34 | The stored intent is dropped on a capture with its order, once, or on a failure whose capacity is released |
| `ReserveSteps.NewRequestIs` | packages/commerce-api/src/commerce_api/routers/reserve.py:302-372 | A request under a new key: told of the last live attempt of the checkout if there is one, else admitted as one new live attempt that holds capacity or denied; and recorded |
| `ReserveSteps.AttemptsMove` | packages/commerce-api/src/commerce_api/routers/reserve.py:375-403 | An attempt moves until it is captured with its order or finished with its capacity released, and never becomes live again |
| `ReserveSteps.MountIs` | apps/razorsharp-concept/components/reserve-checkout.tsx:24-30 | Mounting: a new bill can be paid exactly if there is one, the buyer has a permission and no stored intent is outstanding; an outstanding one comes back, as stored, exactly if the backend could be asked and it is for the reviewed bill; storage is given up exactly for an intent known to be done with |
| `ReserveSteps.SubmitIs` | apps/razorsharp-concept/components/reserve-checkout.tsx:35-36 | The button sends exactly if the page has a bill and a permission, waits for nothing, and is a retry or not blocked; it sends the pending intent or one for this bill and permission under a new key, stored first |
| `ReserveSteps.CommitIs` | apps/razorsharp-concept/components/reserve-checkout.tsx:43-51 | A click from the chat is spent once, and sends exactly if it is new, nothing is pending or blocked, and the bill shown is the reviewed one in hash and version |
| `ReserveSteps.AnswerIs` | apps/razorsharp-concept/components/reserve-checkout.tsx:37-40 | For every answer: an attempt is remembered on the page and in storage, a denial ends the intent in both and shows the new bill, no answer keeps it |
| `ReserveSteps.PollIs` | apps/razorsharp-concept/components/reserve-checkout.tsx:31-34 | For every attempt: what a poll confirms or shows, each once, and that it empties storage exactly as it first confirms, or first sees a failure with its capacity released |
| `ReserveSteps.LostPurchaseCompletes` | apps/razorsharp-concept/components/reserve-checkout.tsx:24-40 | For every bill and permission: admitted, the answer lost, the page left; sent again by a later page it is the one payment, and captured it is confirmed and storage is empty |
| `MerchantRefund.StoredBeforeSent` | apps/razorsharp-concept/components/merchant-refund.tsx:15-18 | On every run, storage failing or not, what is in flight is stored, no key runs twice, and the refunds of the order are exactly this panel's admitted approvals, each once and in order, beside those of other surfaces |
| `MerchantRefund.NeverOverCapture` | packages/commerce-api/src/commerce_api/routers/orders.py:476-491 | On every run, with refunds of other surfaces, settlements and a closing window in between, the refunds out never exceed the capture, and every admitted approval ran on exactly the refundable amount its merchant was shown |
| `MerchantRefund.EvolveKeepsBook` | packages/transaction-kernel/src/transaction_kernel/refunds.py:148-168 | A refund that settles or fails, and one admitted elsewhere, keep the ledger: a failed one gives back exactly its own amount |
| `MerchantRefund.RetryIsTheSame` | apps/razorsharp-concept/components/merchant-refund.tsx:16-18 | With an approval pending, approving again sends that approval under its own key whatever is typed |
| `MerchantRefund.RetryRecovers` | apps/razorsharp-concept/components/merchant-refund.tsx:18-20 | If it had been decided the retry receives the recorded decision and nothing runs, though its review is out of date by then |
| `MerchantRefund.ForgetsExactly` | apps/razorsharp-concept/components/merchant-refund.tsx:12-21 | A step forgets an approval that was decided unheard if and only if an idle panel with a review, a valid amount and a working write approves over a stored one it could not read back, or a refusal ahead of the record is taken as definite |
| `MerchantRefund.BenignRunForgetsNothing` | apps/razorsharp-concept/components/merchant-refund.tsx:12-21 | In every other run each decided approval was heard of or is the one stored, and the panel shows it |
| `MerchantRefund.OneUnheardApproval` | apps/razorsharp-concept/components/merchant-refund.tsx:15-21 | In such a run at most one decided approval is unheard, and a new key is made only when there is none |
| `MerchantRefund.NewApprovalIff` | apps/razorsharp-concept/components/merchant-refund.tsx:15-17 | An approval is made exactly if none is in flight or pending, a review is shown, the amount is positive, a safe integer and no more than the review says, and storage takes it; it is for that amount and review |
| `MerchantRefund.OfferIsWhatIsLeft` | packages/transaction-kernel/src/transaction_kernel/refunds.py:148-168 | Every refund but a failed one takes its amount off what can be refunded; a closed window leaves nothing |
| `MerchantRefund.DeliveredApproval` | packages/commerce-api/src/commerce_api/routers/orders.py:460-491 | An approval runs exactly if it is let in under an unused key and what can be refunded is what was reviewed; it is admitted exactly if none is on its way, the window is open, the amount fits and the terms allow it |
| `MerchantRefund.ApprovalEndsIff` | apps/razorsharp-concept/components/merchant-refund.tsx:18-21 | The panel is done with an approval exactly if storage gives it up and the answer is a decision or a refusal it counts as definite |
| `MerchantRefund.PanelIs` | apps/razorsharp-concept/components/merchant-refund.tsx:12-22 | A mount takes up what storage holds, and a review is fetched or put away only with nothing pending; none of it while a request is in flight |
| `MerchantRefund.BookMoves` | packages/transaction-kernel/src/transaction_kernel/refunds.py:148-168 | A pending refund settles once, processed or failed; one from elsewhere is admitted exactly when none is on its way, the window is open and it fits; a closed window stays closed |
| `MerchantRefund.BarredRetryForgets` | apps/razorsharp-concept/components/merchant-refund.tsx:21 | For every amount that fits twice: an answer lost, the refund settled, the retry turned away ahead of the record, the review refreshed and the amount approved again leave two refunds, and of the first nothing was heard and nothing is stored |
| `MerchantRefund.MerchantRefund.constructor` | apps/razorsharp-concept/components/merchant-refund.tsx:11 | A new panel holds no review, no approval and nothing stored |
| `MerchantRefund.MerchantRefund.Remount` | apps/razorsharp-concept/components/merchant-refund.tsx:12 | A mount reads the stored approval back if storage can be read |
| `MerchantRefund.MerchantRefund.ShowReview` | apps/razorsharp-concept/components/merchant-refund.tsx:13 | A review is shown only when nothing is pending |
| `MerchantRefund.MerchantRefund.ApproveRefund` | apps/razorsharp-concept/components/merchant-refund.tsx:15-17 | Approving resends the pending approval or stores a new valid one before it is in flight; a storage that refuses stops it |
| `MerchantRefund.MerchantRefund.Answer` | apps/razorsharp-concept/components/merchant-refund.tsx:18-21 | A decision or a definite refusal ends the intent, storage first; anything else keeps it |
| `BasketSignature.PrintIsInjective` | apps/razorsharp-concept/lib/authoritative-bill.ts:133 | A printed line determines its SKU and quantity, even when the SKU contains colons |
| `BasketSignature.SortedIsUnique` | apps/razorsharp-concept/lib/authoritative-bill.ts:134 | Two sorted sequences with the same elements are equal, whichever algorithm sorts |
| `BasketSignature.JoinIsInjective` | apps/razorsharp-concept/lib/authoritative-bill.ts:135 | Joining parts that contain no separator can be undone |
| `BasketSignature.SignatureIsCanonical` | apps/razorsharp-concept/lib/authoritative-bill.ts:130-136 | Requests with the same positive lines in any order have the same signature, with no condition on SKUs |
| `BasketSignature.SignatureIsExact` | apps/razorsharp-concept/lib/authoritative-bill.ts:130-136 | For SKUs without the separator two requests have equal signatures if and only if their positive lines are equal as multisets |
| `BasketSignature.BarInSkuCollides` | apps/razorsharp-concept/lib/authoritative-bill.ts:133-135 | For any two lines, in the order they sort, the one line that carries the first in its SKU, behind a separator, gives a different basket the same signature |
| `AuthoritativeBill.NextKeepsInv` | apps/razorsharp-concept/lib/authoritative-bill.ts:157-236 | Every step of a build, abort, reload and backend step, a listed checkout that moved on before it is read included, keeps: one resumable checkout for each signature, and held keys record exactly the basket they were minted for |
| `AuthoritativeBill.OneResumableCheckoutPerBasket` | apps/razorsharp-concept/lib/authoritative-bill.ts:68-101 | Over any builds, retries, basket switches, reloads, aborts, lost answers and checkouts that move on at any point of a walk no two resumable checkouts have the same lines |
| `AuthoritativeBill.BillIsForTheseLines` | apps/razorsharp-concept/lib/authoritative-bill.ts:157-219 | The bill on screen is for exactly the requested lines, whether it was adopted, built, or replayed by a key still held |
| `AuthoritativeBill.ShownIsLiveIff` | apps/razorsharp-concept/lib/authoritative-bill.ts:81-98 | A card shown by reading a row is of a checkout the buyer can act on as it is read, however long ago the row was listed; one shown by a checkout call is if and only if the request ran just now: a card replayed under a held key is always of a checkout that is no longer resumable |
| `AuthoritativeBill.CheckoutOutcome` | apps/razorsharp-concept/lib/authoritative-bill.ts:217-218 | A checkout call replays, or opens a new checkout for the basket that waits for approval |
| `AuthoritativeBill.FailedLookupCreatesNothing` | apps/razorsharp-concept/lib/authoritative-bill.ts:65-66 | While the walk is unfinished nothing is created, and a failed page or row ends the build |
| `AuthoritativeBill.CartRan` | packages/commerce-api/src/commerce_api/services/cart_service.py:355-378 | Creating the cart gives the basket an empty open cart of its own |
| `AuthoritativeBill.LineRan` | packages/commerce-api/src/commerce_api/services/cart_service.py:600-701 | Setting a line under its unused key adds exactly that line to the basket's cart |
| `AuthoritativeBill.CheckoutRan` | packages/commerce-api/src/commerce_api/services/checkout_service.py:193-318 | Opening the checkout of the full cart keeps one resumable checkout for each signature and records a card for exactly the basket |
| `AuthoritativeBill.EvolveKeepsInv` | packages/transaction-kernel/src/transaction_kernel/states.py:139-199 | A checkout version moving through its lifecycle keeps the invariant |
| `AuthoritativeBill.ReapprovalKeepsOneIff` | packages/commerce-api/src/commerce_api/services/admission_service.py:638-658 | A re-approval, which opens a new version of an approved checkout, keeps one resumable checkout for each basket if and only if none was opened for the same lines in the meantime |
| `AuthoritativeBill.ReapprovalDoublesCheckout` | packages/commerce-api/src/commerce_api/services/admission_service.py:638-658 | For every line: approving, building the same basket again and a re-approval leave two resumable checkouts for it |
| `AuthoritativeBill.FilledCartMatchesIff` | apps/razorsharp-concept/lib/authoritative-bill.ts:184-198 | A cart filled line by line holds exactly the requested lines if and only if the request names each SKU once |
| `AuthoritativeBill.RepeatedSkuDoublesCheckout` | apps/razorsharp-concept/lib/authoritative-bill.ts:184-218 | For every line, naming it twice is enough for a second resumable checkout with the same lines |
| `AuthoritativeBill.AuthoritativeBill.constructor` | apps/razorsharp-concept/lib/authoritative-bill.ts:150-153 | A new hook holds no keys, builds nothing and shows nothing |
| `AuthoritativeBill.AuthoritativeBill.StartBuild` | apps/razorsharp-concept/lib/authoritative-bill.ts:158-165 | A build starts with the held keys of the same basket or with fresh ones, and replaces the build before it |
| `AuthoritativeBill.AuthoritativeBill.PageListed` | apps/razorsharp-concept/lib/authoritative-bill.ts:75-80 | The loop over a page keeps its resumable rows, newest first, and the cursor of the next page |
| `AuthoritativeBill.AuthoritativeBill.RowRead` | apps/razorsharp-concept/lib/authoritative-bill.ts:81-98 | A row is adopted exactly when its checkout waits for approval as it is read and has the wanted signature, else passed |
| `AuthoritativeBill.AuthoritativeBill.CreateCartNow` | apps/razorsharp-concept/lib/authoritative-bill.ts:179 | The cart is created under the basket's own key |
| `AuthoritativeBill.AuthoritativeBill.SetLineNow` | apps/razorsharp-concept/lib/authoritative-bill.ts:184-198 | The next line is sent under the key held for its SKU, minted once |
| `AuthoritativeBill.AuthoritativeBill.CheckoutNow` | apps/razorsharp-concept/lib/authoritative-bill.ts:202-219 | An unfulfillable cart stops the build; else the checkout is opened under the held key and its card shown |
| `BillSteps.SetLineIs` | packages/commerce-api/src/commerce_api/services/cart_service.py:600-701 | A line is set if and only if its quantity is from 0 to 99 and the cart is open or its checkout can be taken back; then the cart is open, has exactly that line for the SKU and the others as they were, and the checkout it was closed behind has ended |
| `BillSteps.OpenCheckoutIs` | packages/commerce-api/src/commerce_api/services/checkout_service.py:193-318 | A checkout opens if and only if the cart can be edited and holds something; it has the cart's lines and waits for approval, in the place of the cart's earlier one if it has one |
| `BillSteps.DeliveriesAre` | packages/transaction-kernel/src/transaction_kernel/idempotency.py:493-561 | What every delivery does and answers: a used key is answered from its record and runs nothing |
| `BillSteps.BuildStarts` | apps/razorsharp-concept/lib/authoritative-bill.ts:158-163 | A build starts at the newest checkout, under the keys held before exactly if they were minted for the same lines as multisets, else under two new ones |
| `BillSteps.KeysOutliveAborts` | apps/razorsharp-concept/lib/authoritative-bill.ts:151-163 | The held keys outlive an abort and not a reload |
| `BillSteps.PageIs` | apps/razorsharp-concept/lib/authoritative-bill.ts:75-80 | A page leaves exactly its resumable rows to read, newest first, and where the next one starts; a last page without any ends the walk, a page that fails ends the build |
| `BillSteps.RowIs` | apps/razorsharp-concept/lib/authoritative-bill.ts:81-98 | A row is adopted exactly if it waits for approval and its lines are the wanted ones as a multiset; any other is passed, and a read that fails ends the build |
| `BillSteps.LostAnswerEndsTheBuild` | apps/razorsharp-concept/lib/authoritative-bill.ts:220-235 | A call that is not answered ends the build and shows nothing |
| `BillSteps.UndisturbedBuildEnds` | apps/razorsharp-concept/lib/authoritative-bill.ts:157-219 | From every state of a session, a build whose requests all get through, in pages of any size, ends; it ends with the bill for exactly its lines if and only if it finds them in a resumable checkout or the held keys do not bring back an earlier answer that something cannot be fulfilled |
| `BillSteps.LifecycleIs` | packages/transaction-kernel/src/transaction_kernel/states.py:139-199 | Which versions move where: never back to waiting but by a re-approval of an approved or failed one |
| `VoiceSession.NextKeepsInv` | apps/razorsharp-concept/components/voice-session.tsx:126-463 | Every event keeps: client and opening belong to the current generation and exclude each other, every other connection that had a socket is closed, the backoff matches the reconnections armed, turns are in order |
| `VoiceSession.OneConnection` | apps/razorsharp-concept/components/voice-session.tsx:178-334 | Over any run the client is of the current generation with nothing opening beside it, and every other connection that ever had a socket has been closed |
| `VoiceSession.LeaksIff` | apps/razorsharp-concept/components/voice-session.tsx:307-331 | Over any run a connection that is no longer current is left unclosed if and only if its ticket failed while it was the one opening, with nothing finishing or resetting first |
| `VoiceSession.FailedTicketLeaks` | apps/razorsharp-concept/lib/voice/client.ts:212-236 | One start and one failed ticket leave a connection that nobody holds and nobody closed |
| `VoiceSession.RetiredIsSilent` | apps/razorsharp-concept/components/voice-session.tsx:183-331 | A connection of an older generation is silenced for good: however the session goes on, no callback and no settling of it changes anything shown or kept |
| `VoiceSession.FinishedStaysQuiet` | apps/razorsharp-concept/components/voice-session.tsx:344-361 | After finishing or resetting nothing reconnects, opens or sends until the buyer acts |
| `VoiceSession.BoundedReconnects` | apps/razorsharp-concept/components/voice-session.tsx:132-148 | Over any run at most three reconnections are armed between resets of the counter, each with the next delay, only while voice is wanted, and the delay index is in range |
| `VoiceSession.TurnsAreSentInOrder` | apps/razorsharp-concept/components/voice-session.tsx:417-463 | Over any run typed turns are sent in the order typed, none twice |
| `VoiceSession.SupersededIsNeverSent` | apps/razorsharp-concept/components/voice-session.tsx:448-462 | A turn superseded before it was sent is never sent |
| `VoiceSession.OnlyTheNewestIsSent` | apps/razorsharp-concept/components/voice-session.tsx:448-460 | Of the turns waiting for a connection only the last can be sent, and over the current connection |
| `VoiceSession.ReconnectionIs` | apps/razorsharp-concept/components/voice-session.tsx:126-148 | For every event: when voice is wanted, what the counter is, and that a retry is armed, after one, two and four seconds, exactly if the current connection closed so that it may be retried or a reconnection failed to open |
| `VoiceSession.OpensIff` | apps/razorsharp-concept/components/voice-session.tsx:178-183 | A connection is opened exactly by a start, a connect, a turn no client takes or a wanted retry, and only while there is none |
| `VoiceSession.ConnectionsAre` | apps/razorsharp-concept/components/voice-session.tsx:298-331 | For every event: which connection has a socket, which is the client, which is opening and whose open is outstanding |
| `VoiceSession.ClosesIff` | apps/razorsharp-concept/components/voice-session.tsx:285-356 | What is closed: at the end the client and what is opening; a client that let a turn go; an open that succeeds too late or fails with a socket; and what its own socket reports closed or ready too late |
| `VoiceSession.CallbackShows` | apps/razorsharp-concept/components/voice-session.tsx:200-284 | What each callback of the current connection shows |
| `VoiceSession.EventShows` | apps/razorsharp-concept/components/voice-session.tsx:344-426 | What every other event shows, and which begin a new turn |
| `VoiceSession.TurnsAre` | apps/razorsharp-concept/components/voice-session.tsx:417-463 | A turn is sent at once exactly if a client takes it, else it waits for the connection that is opening; when that settles it is done with, and sent exactly if it is the newest and a client takes it |
| `VoiceSession.ShelfIsKept` | apps/razorsharp-concept/components/voice-session.tsx:231-241 | Over any run after the cart was updated the shelf stays until the buyer speaks, types or resets |
| `VoiceSession.VoiceSessionProvider.constructor` | apps/razorsharp-concept/components/voice-session.tsx:114-125 | A new session has no connection, no timer and no turns |
| `VoiceSession.VoiceSessionProvider.StopReconnecting` | apps/razorsharp-concept/components/voice-session.tsx:126-131 | Stopping clears the wish, the counter and the timer |
| `VoiceSession.VoiceSessionProvider.ScheduleReconnect` | apps/razorsharp-concept/components/voice-session.tsx:132-148 | A retry is armed only if wanted, none is armed and fewer than three were, with the delay at the counter |
| `VoiceSession.VoiceSessionProvider.ConnectNow` | apps/razorsharp-concept/components/voice-session.tsx:178-183 | Connecting reuses a client or an opening, else opens a new generation |
| `VoiceSession.VoiceSessionProvider.StartListening` | apps/razorsharp-concept/components/voice-session.tsx:339-342 | Starting resets the counter and connects |
| `VoiceSession.VoiceSessionProvider.TicketArrived` | apps/razorsharp-concept/lib/voice/client.ts:229-236 | A ticket gives a connection that is still opening its socket |
| `VoiceSession.VoiceSessionProvider.OpenSettled` | apps/razorsharp-concept/components/voice-session.tsx:298-331 | then, catch and finally of an open: only the current generation becomes the client or reschedules; a client that opened too late or whose socket failed is closed, one refused its ticket is not |
| `VoiceSession.VoiceSessionProvider.ConnectionClosed` | apps/razorsharp-concept/components/voice-session.tsx:285-295 | A close of the current connection drops the client and reschedules if retryable |
| `VoiceSession.VoiceSessionProvider.HeardFinal` | apps/razorsharp-concept/components/voice-session.tsx:204-226 | A final transcript supersedes waiting typed turns and resets what is shown unless stale |
| `VoiceSession.VoiceSessionProvider.ReconnectTimerFired` | apps/razorsharp-concept/components/voice-session.tsx:144-147 | The timer reconnects if voice is still wanted |
| `VoiceSession.VoiceSessionProvider.RetireConnections` | apps/razorsharp-concept/components/voice-session.tsx:344-356 | Client and opening are closed and a new generation begins |
| `VoiceSession.VoiceSessionProvider.FinishListening` | apps/razorsharp-concept/components/voice-session.tsx:344-361 | Finishing retires the connection |
| `VoiceSession.VoiceSessionProvider.ResetSession` | apps/razorsharp-concept/components/voice-session.tsx:390-413 | Resetting retires the connection, supersedes turns and clears the page |
| `VoiceSession.VoiceSessionProvider.TypeTurn` | apps/razorsharp-concept/components/voice-session.tsx:417-425 | Typing takes the next turn number |
| `VoiceSession.VoiceSessionProvider.LetClientGo` | apps/razorsharp-concept/components/voice-session.tsx:439-443 | A client that did not take the turn is closed and its generation retired |
| `VoiceSession.VoiceSessionProvider.SayText` | apps/razorsharp-concept/components/voice-session.tsx:417-463 | A turn is sent at once if a client takes it, else waits for the one connection being opened |
| `VoiceSession.VoiceSessionProvider.WaitedTurn` | apps/razorsharp-concept/components/voice-session.tsx:448-460 | A waiting turn is sent only if it is the newest and a client takes it |
| `ProviderModal.OneUnresolved` | apps/razorsharp-concept/lib/razorpay.ts:204-310 | Over any interleaving of opens, provider events, timers and clicks at most one promise is unresolved and it is the active checkout's |
| `ProviderModal.SecondOpenStartsNothing` | apps/razorsharp-concept/lib/razorpay.ts:211-214 | While a checkout is active the same order shares its modal, another is refused, and nothing is started |
| `ProviderModal.ResultIsFinal` | apps/razorsharp-concept/lib/razorpay.ts:229-235 | A result never changes again |
| `ProviderModal.FirstOutcomeWins` | apps/razorsharp-concept/lib/razorpay.ts:229-235 | A resolved open has the first outcome that was reported, and nothing was reported to an unresolved one |
| `ProviderModal.OneInteractiveIff` | apps/razorsharp-concept/lib/razorpay.ts:105-149 | After an open at most one container takes clicks if and only if there was none beside the one the open adds, or the open got its own modal and the provider opened it |
| `ProviderModal.SharedOpenUncoversStaleSurface` | apps/razorsharp-concept/lib/razorpay.ts:208-214 | Leaving a checkout, opening it again and clicking once more puts the stale container back beside the live one |
| `ProviderModal.TimersBelongToTheOpenModal` | apps/razorsharp-concept/lib/razorpay.ts:222-235 | If the provider reports nothing before its open returns, every armed timer and button belongs to the unresolved modal |
| `ProviderModal.StartedTimersAreLiveIff` | apps/razorsharp-concept/lib/razorpay.ts:276-294 | The window timer outlives its modal if and only if an outcome came during open and there is a deadline |
| `ProviderModal.OutlivingTimerHidesTheNextCheckout` | apps/razorsharp-concept/lib/razorpay.ts:278 | Such a timer puts away the surface of whichever checkout is open when it fires |
| `ProviderModal.NewModalIs` | apps/razorsharp-concept/lib/razorpay.ts:215-306 | What a new modal is when its open returns, for every outcome, error and deadline |
| `ProviderModal.OutcomeSettlesOnce` | apps/razorsharp-concept/lib/razorpay.ts:229-235 | The first outcome resolves the promise and takes the timers and the button away; later ones change nothing |
| `ProviderModal.LeavingIs` | apps/razorsharp-concept/lib/razorpay.ts:276-301 | The button appears when its timer fires and never otherwise; it, or the deadline if armed, dismisses a pending modal and hides every surface |
| `ProviderModal.Razorpay.constructor` | apps/razorsharp-concept/lib/razorpay.ts:151-152 | The module starts with nothing active |
| `ProviderModal.Razorpay.RestoreProviderSurface` | apps/razorsharp-concept/lib/razorpay.ts:126-132 | The loop makes every container interactive again |
| `ProviderModal.Razorpay.NeutraliseProviderSurface` | apps/razorsharp-concept/lib/razorpay.ts:105-117 | The loop puts every container out of the way |
| `ProviderModal.Razorpay.KeepOneInteractiveSurface` | apps/razorsharp-concept/lib/razorpay.ts:142-149 | The loop puts every container but the newest out of the way |
| `ProviderModal.Razorpay.SettleModal` | apps/razorsharp-concept/lib/razorpay.ts:229-235 | The first outcome resolves, cleans up and is kept; later ones change nothing |
| `ProviderModal.Razorpay.StartModal` | apps/razorsharp-concept/lib/razorpay.ts:215-306 | The executor: an expired open is dismissed unopened, a throwing one rejects, else timers are armed and one surface kept |
| `ProviderModal.Razorpay.OpenRazorpay` | apps/razorsharp-concept/lib/razorpay.ts:204-310 | An open restores the surfaces, then shares, refuses, or starts its own modal |
| `ProviderModal.Razorpay.ReturnPressed` | apps/razorsharp-concept/lib/razorpay.ts:297-301 | Leaving dismisses the modal and puts every surface away |
| `ProviderModal.Razorpay.WindowTimerFired` | apps/razorsharp-concept/lib/razorpay.ts:278 | The deadline dismisses the modal and puts every surface away |
| `ProviderModal.Razorpay.OpenFinished` | apps/razorsharp-concept/lib/razorpay.ts:307-310 | The finally of the owner makes room for the next checkout |
| `ChatHistory.ReadIsValid` | apps/razorsharp-concept/lib/chat-history.ts:23-69 | Whatever is stored, what is read has at most 20 chats with distinct ids, at most 60 messages each, and an active id that exists |
| `ChatHistory.ReadableChatsAreRead` | apps/razorsharp-concept/lib/chat-history.ts:23-69 | Of an object with a list of chats exactly the last twenty readable ones are read; of anything else nothing |
| `ChatHistory.ChatReadableIff` | apps/razorsharp-concept/lib/chat-history.ts:35-48 | A chat is read exactly if it has a text id and title and a list of readable messages |
| `ChatHistory.ReadChatIs` | apps/razorsharp-concept/lib/chat-history.ts:49-55 | What is read of a chat is its id, title and the last sixty of its messages in order |
| `ChatHistory.UnreadableIsIgnored` | apps/razorsharp-concept/lib/chat-history.ts:23-69 | A chat that is not readable, and an item that is not a text, are as if not there |
| `ChatHistory.ExecutionIs` | apps/razorsharp-concept/lib/copilot-execution.ts:42-55 | What is read of an execution: the texts and flags that are there, and of its lists the texts |
| `ChatHistory.ExecutionReadsBack` | apps/razorsharp-concept/lib/copilot-execution.ts:42-55 | A normalised execution survives writing and reading |
| `ChatHistory.HistoryReadsBack` | apps/razorsharp-concept/lib/chat-history.ts:23-69 | Reading back what was written returns every valid history unchanged |
| `ChatHistory.ReadingSettles` | apps/razorsharp-concept/lib/chat-history.ts:23-69 | Storage settles after one visit, whatever it held |
| `ChatHistory.AddMessageKeepsValid` | apps/razorsharp-concept/lib/chat-history.ts:70-93 | Adding a message keeps a valid history valid whatever ids it is given |
| `ChatHistory.AddMessageIsExact` | apps/razorsharp-concept/lib/chat-history.ts:70-93 | The new message ends the active chat, now the newest; every other chat is kept but for the oldest when a twenty-first starts |
| `ChatHistory.ActiveChatGoesOn` | apps/razorsharp-concept/lib/chat-history.ts:77-82 | The active chat moves behind the others, which keep their order, under its own id and title, with the last 59 of its messages and then the new one |
| `ChatHistory.NewChatStarts` | apps/razorsharp-concept/lib/chat-history.ts:83-93 | With no active chat one starts behind the others, without the oldest of twenty: its title is the first 65 characters of the message, its only one |
| `ChatHistory.SaveReplyIsExact` | apps/razorsharp-concept/lib/chat-history.ts:94-126 | A reply answers its message, keeps an execution when none is given, changes nothing else and keeps the history valid |
| `ChatHistory.SaveReplyTwice` | apps/razorsharp-concept/lib/chat-history.ts:101-110 | Saving the same reply twice is saving it once |
| `ChatHistory.ReplyReachesMessage` | apps/razorsharp-concept/lib/chat-history.ts:70-126 | The reply to a message that was just added reaches it |
| `ChatHistory.UniqueIsOverlay` | apps/razorsharp-concept/lib/chat-history.ts:135-137 | Merging lists the saved chats brought up to date, in their places, then the new ones |
| `ChatHistory.MergeKeepsIff` | apps/razorsharp-concept/lib/chat-history.ts:128-140 | Merging keeps a current chat if and only if it has no old place, or the saved chats from that place on and the new chats are at most twenty |
| `ChatHistory.MergeIsValidIff` | apps/razorsharp-concept/lib/chat-history.ts:128-140 | A merged history is valid if and only if its active chat stays in by that condition |
| `ChatHistory.DisjointMergeKeepsCurrent` | apps/razorsharp-concept/lib/chat-history.ts:128-140 | With no id in common everything in current is kept, as the newest part, and the active id with it |
| `ChatHistory.MergeCanDropTheActiveChat` | apps/razorsharp-concept/lib/chat-history.ts:128-140 | Twenty saved chats and a current one that is the oldest of them beside a new one lose the active chat |
| `Settlement.PollOnce` | apps/razorsharp-concept/lib/manual-pay.ts:282-300 | One poll: how it ends the wait, whether it faults, and whether it reconciled, for every reply and clock |
| `Settlement.AwaitSettlement` | apps/razorsharp-concept/lib/manual-pay.ts:270-314 | For every trace of polls: it ends at the first deciding poll with that result, notices alternate from offline and count the changes, each sleep is the poll interval or the backoff, slowness is announced at the first slow poll only, successful reconciliations are exactly those due |
| `Settlement.NoteConnection` | apps/razorsharp-concept/lib/manual-pay.ts:291-299 | A notice goes out only when the connection changed, and the delay doubles to its cap or returns to the start |
| `Settlement.Sleep` | apps/razorsharp-concept/lib/manual-pay.ts:308-312 | Slowness is announced once |
| `Settlement.OrderConfirms` | apps/razorsharp-concept/lib/manual-pay.ts:284-307 | A view with an order confirms and nothing else does; review means escalated; failure means a state the backend calls finished, without an order; a passing fault decides nothing |
| `Settlement.FirstOrderEndsTheWait` | apps/razorsharp-concept/lib/manual-pay.ts:302-303 | The first view with an order is where a wait that reaches it ends, and confirmed is how |
| `Settlement.PollIsTable` | apps/razorsharp-concept/lib/manual-pay.ts:282-307 | What a poll comes to in the fields it read: an order confirms, an escalated state or attempt escalates, a finished state of checkout or attempt fails, anything else goes on, and a reconciliation can fault or end it |
| `Settlement.AskedIff` | apps/razorsharp-concept/lib/manual-pay.ts:286-290 | A poll reconciles exactly if the checkout awaits payment or does not know, has no order, is not escalated, and fifteen seconds went by since the last that succeeded |
| `Settlement.SleepsAndSlowness` | apps/razorsharp-concept/lib/manual-pay.ts:298-312 | The sleep is 1.5 seconds after a poll without a fault and the delay by the faults just before it after one with; slow is the first poll without a fault forty seconds after the start |
| `Settlement.ReconciliationsAreApart` | apps/razorsharp-concept/lib/manual-pay.ts:286-290 | On a clock that never runs backwards successful reconciliations are at least fifteen seconds apart |
| `Settlement.BackoffTable` | apps/razorsharp-concept/lib/manual-pay.ts:298-299 | The retry delays are 1.5, 3, 6 and then 10 seconds |
| `ManualApproval.NextKeepsInv` | apps/razorsharp-concept/lib/manual-pay.ts:105-140 | Every approval, answer, reload and end of a settlement, and every step of the kernel, keeps: each version attempted at most once and only the current one live, stored keys and recorded decisions about the bill the key went out for, and the buyer goes on only where the checkout has an attempt |
| `ManualApproval.KeyIsReusedIff` | apps/razorsharp-concept/lib/manual-pay.ts:93-140 | Over any run, with any bills interleaved in one storage slot: approving a bill reuses a key, one that went out for exactly this bill, if and only if storage can be read, a key of the bill was written, and since then no other bill's was and none were removed |
| `ManualApproval.KeyIsForOneBill` | apps/razorsharp-concept/lib/manual-pay.ts:123-140 | No key ever goes out for two bills |
| `ManualApproval.LostKeyIsHarmlessIff` | apps/razorsharp-concept/lib/manual-pay.ts:105-112 | Sending a decided bill again under a new key shows the same and starts nothing, whatever the kernel would decide now, if and only if the recorded decision was not a denial and an attempt on the checkout is still live or the version stands approved |
| `ManualApproval.DuplicateIsTrueIff` | apps/razorsharp-concept/lib/manual-pay.ts:202-203 | On any run, going on after a duplicate, or saying that no payment started, is true of the bill if and only if the bill itself has an attempt or no version of its checkout has one |
| `ManualApproval.DuplicateMisleadsIff` | apps/razorsharp-concept/lib/manual-pay.ts:142-163 | On any run, a duplicate under an unused key misleads the buyer if and only if the version stands approved and a payment of an earlier version has ended, or another version is being paid for and this one never was |
| `ManualApproval.RefusedVersionContinues` | apps/razorsharp-concept/lib/manual-pay.ts:142-163 | A payment that fails, a new version whose admission is refused, and the bill sent again: the client goes on, and the bill has no attempt and never gets one |
| `ManualApproval.DeliverKeepsOk` | packages/transaction-kernel/src/transaction_kernel/approvals.py:382-457 | A delivery under any key drops no attempt, admits a version at most once, gives none to one that is past approval without it, and answers Allowed only where the version has an attempt and Duplicate only where its checkout has one or it stands approved |
| `ManualApproval.NoPaymentIsFinal` | apps/razorsharp-concept/lib/manual-pay.ts:142-163 | A bill the buyer is told started no payment has none after any further run |
| `ManualApproval.RetriesKeepTheKey` | apps/razorsharp-concept/lib/manual-pay.ts:123-140 | While storage works, one bill is approved and nothing removes its keys, every retry over any lost answers and reloads carries the first key |
| `ManualApproval.ManualCheckout.constructor` | apps/razorsharp-concept/lib/manual-pay.ts:93 | Nothing is stored, approved or in flight at first |
| `ManualApproval.ManualCheckout.StartApproval` | apps/razorsharp-concept/lib/manual-pay.ts:123-200 | The stored keys are used if they are for exactly this bill, else new ones, and stored before the request |
| `ManualApproval.ManualCheckout.ApprovalAnswered` | apps/razorsharp-concept/lib/manual-pay.ts:190-207 | A duplicate is followed by a read of the checkout and continues if any of its versions has an attempt; going on writes the keys again, a refusal or an approval without payment removes them, a fault keeps them |
| `ManualApproval.ManualCheckout.SettlementEnded` | apps/razorsharp-concept/components/manual-checkout.tsx:132-147 | The end of the wait for a settlement removes the keys |
| `ApprovalSteps.DecisionIs` | packages/transaction-kernel/src/transaction_kernel/approvals.py:382-457 | For every version: while a payment of the checkout is under way an approval is a duplicate; else one that waits is decided: admitted with one new attempt, approved without one, or retired for a new version; nothing else of the kernel moves |
| `ApprovalSteps.SupersedeIs` | packages/commerce-api/src/commerce_api/services/admission_service.py:386-465 | A new version comes only where nothing is under way and the last was not paid, and retires the last |
| `ApprovalSteps.NewKeyIs` | packages/commerce-api/src/commerce_api/services/admission_service.py:494-640 | What a new key is answered, and that only what was decided or found a payment under way is recorded |
| `ApprovalSteps.SendingIs` | apps/razorsharp-concept/lib/manual-pay.ts:123-200 | What is sent is what was stored for exactly this bill and can be read, or has a key never used; stored first; and nothing while one is in flight |
| `ApprovalSteps.AnswerIs` | apps/razorsharp-concept/lib/manual-pay.ts:188-207 | For every outcome what the buyer is shown and what becomes of the keys |
| `ApprovalSteps.NewApprovalIs` | apps/razorsharp-concept/lib/manual-pay.ts:123-207 | From every state, a bill sent under a new key and answered: what the buyer is shown and whether the key is kept, by where the version stands and which payments there are |
| `RefundAmount.AmountIsExact` | apps/razorsharp-concept/components/refund-approval-panel.tsx:4-8 | A text is accepted with m if and only if it has the accepted form, denotes exactly m hundredths, and 0 < m <= maximum within safe integers |
| `RefundAmount.RefusedIff` | apps/razorsharp-concept/components/refund-approval-panel.tsx:5-7 | It is refused if and only if it is malformed, zero, above the maximum or above the safe integers |
| `RefundAmount.WellformedIff` | apps/razorsharp-concept/components/refund-approval-panel.tsx:5 | The accepted form is digits alone, or with a point and one or two more |
| `RefundAmount.PrintParsesBack` | apps/razorsharp-concept/components/refund-approval-panel.tsx:11 | Every amount printed with two decimals is accepted exactly if it is in range, and as itself |
| `RefundAmount.PrintsExactlyIff` | apps/razorsharp-concept/components/refund-approval-panel.tsx:11 | For every double nearest to maximum / 100, printing it with two decimals prints the maximum if and only if the maximum is at most 100 * 2^46 or 16 * maximum lies at most eight above or seven below a multiple of 25 |
| `RefundAmount.InitialTextIsTheMaximumIff` | apps/razorsharp-concept/components/refund-approval-panel.tsx:11 | So the text the field starts with stands for the whole refundable amount exactly in that case |
| `TrustInventory.PolicyFile.Provision` | scripts/provision_reserve_trust.py:19-72 | One run writes exactly the policy specified or changes nothing, and says which |
| `TrustInventory.InventoryOnlyGrows` | scripts/provision_reserve_trust.py:34-62 | Over any sequence of runs, successful or failed, no kid disappears, no fingerprint changes, a revoked kid stays revoked, and issuer, audience and endpoint stay |
| `TrustInventory.SuccessIsExact` | scripts/provision_reserve_trust.py:29-62 | A run that succeeds adds at most its own kid under the supplied fingerprint, revokes exactly the listed kids, and writes a valid policy |
| `TrustInventory.SucceedsIff` | scripts/provision_reserve_trust.py:19-72 | A run succeeds if and only if the key is a public P-256 key with the supplied fingerprint, its kid is new or active under that fingerprint, the stored policy is of this issuer and endpoint, every kid to revoke is there, and the policy it makes is usable and can be written |
| `TrustInventory.ReuseIsRefused` | scripts/provision_reserve_trust.py:44-46 | A revoked kid, or one under another fingerprint, can never be enrolled again, after any further runs |
| `TrustInventory.PinsAreAuthenticated` | scripts/provision_reserve_trust.py:31-47 | Every pin was enrolled by a run whose operator supplied the fingerprint its key has; at most 32 keys, one day, one issuer |
| `DemoSeeder.RunCreatesWhatIsMissing` | scripts/seed_demo_state.py:1332-1391 | A run that completes creates exactly the plain orders and refusals missing from the survey, an interrupted one no more, and nothing held is lost |
| `DemoSeeder.RunConverges` | scripts/seed_demo_state.py:1332-1404 | A run without shortfalls leaves the tenant complete, and the next run performs no action |
| `DemoSeeder.IdleIffComplete` | scripts/seed_demo_state.py:1332-1404 | A run does nothing if and only if nothing is missing |
| `DemoSeeder.InterruptedRunsAddUp` | scripts/seed_demo_state.py:1341-1391 | Made and still missing add up to what was missing, over any number of interrupted runs |
| `DemoSeeder.RestartedRunIsExact` | scripts/seed_demo_state.py:1341-1391 | A run that completes after any interruptions ends with exactly the orders asked for |
| `DemoSeeder.AvailableIsDistinct` | scripts/seed_demo_state.py:1407-1430 | No order is offered twice for a refund and none that is offered has one |
| `DemoSeeder.RefundsAreOnDistinctSales` | scripts/seed_demo_state.py:1363-1378 | The refunds of one run sit on different sales, none refunded before |
| `DemoSeeder.Seeder.BuyOrders` | scripts/seed_demo_state.py:1342-1352 | The loop buys the missing orders until one raises |
| `DemoSeeder.Seeder.SeedRefund` | scripts/seed_demo_state.py:1371-1378 | A refund takes one sale and is an action only if it reached the wanted state |
| `DemoSeeder.Seeder.SeedRefunds` | scripts/seed_demo_state.py:1363-1378 | The loop over the plan takes one available sale for each missing state |
| `DemoSeeder.Seeder.SeedFurniture` | scripts/seed_demo_state.py:1394-1404 | A dead command, a cancelled and a rejected checkout, each only if missing |
| `DemoSeeder.Seeder.BuildMissing` | scripts/seed_demo_state.py:1332-1404 | The phases in order, every decision made against the survey taken first |
| `SeederSteps.StatusIsSeenIff` | scripts/seed_demo_state.py:1353-1361 | The survey counts a refund in a state exactly if an order has one |
| `SeederSteps.AvailableIs` | scripts/seed_demo_state.py:1407-1430 | Refunds go on the orders of this run in the order they were made, then on the older ones without a refund, newest first |
| `SeederSteps.RefundsAre` | scripts/seed_demo_state.py:1363-1378 | How many refunds are made, which are reported done and which as shortfalls, what they cost the platform and when it makes the run stop, for every plan |
| `SeederSteps.RefundsStand` | scripts/seed_demo_state.py:1363-1378 | The next sale gets exactly the status the next lacking refund reached, and no other order changes |
| `SeederSteps.FurnitureIs` | scripts/seed_demo_state.py:1390-1404 | Each missing piece is made once and in order until the platform raises, and a command taken in time is a shortfall |
| `SeederSteps.ReportsAddUp` | scripts/seed_demo_state.py:1332-1404 | A run that completes reports everything that was missing once, as done or as a shortfall; one that raises reports less |
| `SeederSteps.OrdersAreFilledUp` | scripts/seed_demo_state.py:1342-1388 | A run that completes leaves as many plain and as many refused orders as asked for, or as there were if more |
| `RecoveryRead.OneReadAtATime` | apps/razorsharp-concept/lib/recovery-read.ts:10-23 | Over any run at most one read is in flight or one retry armed, every settled read is reported once, there is at most one success, and nothing starts after it |
| `RecoveryRead.KeepsTrying` | apps/razorsharp-concept/lib/recovery-read.ts:14-18 | Unless done or cancelled a read is in flight or armed, as long as onError does not throw |
| `RecoveryRead.SettlingReports` | apps/razorsharp-concept/lib/recovery-read.ts:14-22 | Until a cancel a value in flight is delivered once and for good, and an error is reported and retried when its timer fires |
| `RecoveryRead.NotAbortedByItself` | apps/razorsharp-concept/lib/recovery-read.ts:10-28 | Nothing but a cancel silences a read |
| `RecoveryRead.ThrowingOnErrorStopsIt` | apps/razorsharp-concept/lib/recovery-read.ts:16-17 | An onError that throws stops the retries for good |
| `RecoveryRead.CancelIsQuiet` | apps/razorsharp-concept/lib/recovery-read.ts:15-28 | After a cancel no callback is made, and at most one more read starts |
| `RecoveryRead.CancelInsideOnErrorArms` | apps/razorsharp-concept/lib/recovery-read.ts:16-17 | That read starts exactly when the cancel came from inside onError |
| `RecoveryRead.RetryingRead.constructor` | apps/razorsharp-concept/lib/recovery-read.ts:24 | The first read starts at once |
| `RecoveryRead.RetryingRead.CancelRead` | apps/razorsharp-concept/lib/recovery-read.ts:25-28 | Cancelling aborts and clears the timer |
| `RecoveryRead.RetryingRead.ReadResolved` | apps/razorsharp-concept/lib/recovery-read.ts:20-22 | A value is delivered once, unless cancelled |
| `RecoveryRead.RetryingRead.ReadRejected` | apps/razorsharp-concept/lib/recovery-read.ts:14-18 | An error is reported and the next read armed, unless cancelled before |
| `RecoveryRead.RetryingRead.TimerFired` | apps/razorsharp-concept/lib/recovery-read.ts:17 | The timer starts the next read |

## Left out

- MicFrames.Outs: samples, ratio and carry are exact reals; rounding to 32-bit floats and the drift it can cause are not modelled.
- WireText.TextParsesBack: `const` and `enum` values are printed for null, booleans, strings, whole numbers and arrays of such; fractions and objects as constants are not modelled in the text, because their text depends on the printing of doubles and on the order of keys, and a number stands for its whole-number text, not for `1.0`.
- WireText.TextIsFlat: of the same constants.
- WireText.TextDeterminesMembers: of the same constants.
- WireTypes.ServerFrameIsSound: the merged definitions are modelled, the order and joining of the lines of the file are not.
- Idempotency.SendKeepsOnce: requests are handled one at a time, so the refusal of a key whose first use is still running does not arise; canonical hashing is equality of requests.
- A request whose answer is lost was processed before its failure is seen, or never is; no request outlives the view that sent it.
- DurableCart.SingleWriterIsExact: a cart is a map from SKU to quantity; prices, availability and quotes are not modelled.
- ReserveIntent.OneUnresolvedPayment: assumes working tab storage (`ReserveStorage.SendsBesideIff` is the case without) and this client as the only payer of its checkouts; limits, scope and expiry of a permission are one flag that blocks a submit.
- ReserveIntent.SettledIff: that the order a checkout reports is its attempt's own (`reserve-recovery.ts:10`) is part of the attempt's `order`.
- The scheduling of the Reserve status poll (a timer and its overlap guard) is not modelled: a poll is one event.
- MerchantRefund.StoredBeforeSent: the case and the reason are fixed for the panel; a review stands for its hash; refunds whose outcome is unknown count as pending; the terms of the sale beyond an open window are a parameter of the decision.
- AuthoritativeBill.OneResumableCheckoutPerBasket: for a new cart (no cart id), with one actor; no committed checkout stays `RESERVED`, which is passed through inside the transaction that opens it (`checkouts.py:922-982`), and a re-approval does not cross another checkout or build for the same lines (`AuthoritativeBill.ReapprovalKeepsOneIff` says exactly when one breaks this).
- AuthoritativeBill.ReapprovalKeepsOneIff: the new version keeps the lines of the old.
- The recovery of a bill for an existing cart id (`authoritative-bill.ts:79-90`) is not modelled.
- BasketSignature.SortedIsUnique: strings are ordered by Dafny characters rather than UTF-16 code units; the results use only that the order is total.
- BasketSignature.SignatureIsExact: quantities are unbounded integers printed in plain decimal.
- VoiceSession.OneConnection: for a mounted session; a client closed while its ticket is on the way is closed once and never gets a socket; notices, speech highlighting, the microphone itself and the reply that follows a cart update are not modelled.
- ProviderModal.OneInteractiveIff: loading `checkout.js`, the deadline badge and the contents of the provider's containers are not modelled; a container is interactive when this module has not put it away.
- ChatHistory.HistoryReadsBack: JSON encoding is the identity on data, and properties beyond the declared ones, which the code carries along, are not modelled.
- Settlement.AwaitSettlement: aborting the wait is a definite failure of the poll it interrupts; `awaitProviderOrder` and the wording of messages would only add easy members.
- ManualApproval.NextKeepsInv: approvals and admissions come from this client alone (an approved version that another surface submits is not modelled); the verify key and the provider's callback are not modelled.
- ManualApproval.NoPaymentIsFinal: of the same.
- RefundAmount.AmountIsExact: in integers; `Number(whole) * 100` in doubles agrees below the safe-integer bound and is refused above it. The printing of the first text is modelled in doubles.
- TrustInventory.PolicyFile.Provision: the thumbprint of a key (RFC 7638, section 3) is a parameter, addresses come split into parts, and replacing the file is atomic.
- DemoSeeder.RunConverges: an action that raises leaves no counted row, and states do not change between runs.
- The Python kernel beyond the idempotency record, React rendering, the regular-expression grammars and the copy of the site: no model, or only easy members.
