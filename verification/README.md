# A verified model of the Weixin bridge

The bridge connects several Weixin bots to an agent host.  Each bot has a polling loop that fetches
messages from a gateway; messages go through a shared deduplicator, may answer a pending approval, and
otherwise become jobs in one bounded queue with a single worker.  Replies, the text tool and approval
prompts send text back to peers, and files travel encrypted through a CDN.  This project models the parts
of that system that are hard to get right and proves what they keep in every run.

How the modules fit together:

- `Text`: strings as sequences of runes; trimming, searching, splitting, decimal printing and reading.
- `Rendezvous`: approvals as a transition system.  Registering, prompting, looking an entry up, sending to
  its channel, receiving, lapsing (timeout, cancellation or a failed prompt) and the deferred delete are
  separate steps in any order.  `Approver` holds the same map and channels on the heap; each of its methods
  is one critical section or channel operation and is proved to be one step.
- `ApprovalParser`: what a reply text means for a single request and for a batch.
- `Routing`: bot labels, tape names, and the keys scoped by them.  `Config` folds flat keys and credentials
  files into bots, accepts or refuses the result, and starts the plugin.
- `Bridge`: the path of every message and every context token, from inbound message to outbound text, as a
  transition system over all bots, in product with the rendezvous of the approvals and with the
  deduplicator.  Taking a message in and resolving it are separate steps, so the loops of several bots, the
  worker, the tools and the approvals interleave in any way.  `Provenance`, `Newest`, `Duplicates` and
  `Jobs` hold the theorems over all its runs, and `Plugin` the methods over token stores, deduplicator and
  approver, each a step or a half step of it.
- `PollLoop`: the polling loop over an arbitrary script of gateway answers, with its delays, its pause, its
  stored cursor.  `Delivery` follows it over many lives, with crashes after any action and a disk that may
  fail; `EndToEnd` puts loop, bridge and queue together.  `Dedup`, `JobQueue` and `RecentMedia` are the
  shared structures beside them.
- `MediaCipher`, `AesKey`, `CdnUpload`: padding (section 6.3 of RFC 5652), ECB mode (section 6.1 of
  NIST SP 800-38A) over any invertible block cipher, the encodings of a key (sections 4 and 8 of RFC 4648),
  and the upload's retries.
- `PlainText`, `SessionSearch`, `QrLogin`: outgoing text, the search for a session id in loose JSON, and
  the login by QR code.

Time is an argument everywhere, in the unit each module names.  Answers of the gateway, of the disk and of
the agent host are arbitrary inputs.

Where the code does less than its comments or its design promise, the model follows the code; theorems say
when the promise holds, and concrete inputs show where it does not:

- Sixteen raw key bytes are used as they are exactly when trimming leaves them alone (`AesKey.RawKeyKept`).
- A tape leads back to its bot and peer exactly when the bot is not called `p2p` (`Routing.TapeRoundTrip`).
- Batch indices stay in the batch up to 2^31 requests, and not beyond (`ApprovalParser.BatchMeaning`,
  `ApprovalParser.LargeBatchWraps`).
- The clock is read before the deduplicator is locked, so it may step back from one call to the next.  The
  answers are those of a full history over all sequences of at most n calls that step back by at most d
  units exactly when d <= 1 or n <= 5001 (`Dedup.AgreementThreshold`); the same threshold decides over all
  runs of the bridge whether duplicates are judged per bot and message (`Duplicates.DropThreshold`).  A
  step back of two units, between two bots, is enough for a repeated message to pass.
- Stripping markdown twice is stripping it once exactly when the first result holds no two fences and no
  two adjacent asterisks (`PlainText.PlainTwice`); `*__*` is a text for which it does not
  (`PlainText.PlainTwiceDiffers`).
- The bots of an accepted configuration keep their cursors under different accounts exactly when they are
  given different ones (`Config.CursorsApartWhen`); two bots without an account id share one
  (`Config.SharedCursor`).
- A cursor that cannot be written goes unnoticed.  Over any number of lives no message is handled twice
  exactly when every life that handles anything starts at or past where each life before it got
  (`Delivery.AtMostOnceIff`); a life leaves its cursor short of what it handled exactly when some turn of it
  began to handle messages and neither that turn nor a later one wrote a cursor before the crash
  (`Delivery.LeftBehindIff`).  `Delivery.FailedWriteRepeats` is an input that repeats a message.
- The token remembered for a peer is the newest received exactly when every reply since then to a job of the
  chat that carries another token was followed by one to a job that carries this one (`Newest.NewestIff`);
  `Newest.OlderTokenReturns` is a run in which it is not.
- A shutdown can be followed by a send on the closed channel exactly when some enqueue was still waiting to
  send when the channel was closed (`JobQueue.ShutdownSafeIff`).

## Model

| member | source | states |
|---|---|---|
| Rendezvous.Reachable | internal/weixin/approver.go:165-243 | in every interleaving the invariant of map, channels and lookups holds |
| Rendezvous.ResultIsOwnReply | internal/weixin/approver.go:165-243 | a wait ends denied for want of a reply, or with the parse, under its own batch size, of the first reply offered to it, whose text came from the same bot and peer and was looked up while the wait was registered |
| Rendezvous.SilenceDenies | internal/weixin/approver.go:200-242 | in every run a wait that ends without a reply, and one refused on a busy key, denies, names no items and has no comment |
| Rendezvous.ApprovalNeedsWord | internal/weixin/approver.go:165-243 | an answer other than a denial comes only from a message of the wait's own peer at its own bot, looked up while it was registered, whose text is one of the approving words or, for a batch, a list of its numbers |
| Rendezvous.FirstHeardWins | internal/weixin/approver.go:165-191 | the reply a wait returns is that of the first of all lookups that found it, since each loop sends before it looks up again |
| Rendezvous.StaleLookupNeverReaches | internal/weixin/approver.go:165-191 | a lookup made before a wait registered or after it returned is never among its offers, and sending it leaves that wait's channel as it is, whatever keys they share |
| Rendezvous.TableIsActiveWaits | internal/weixin/approver.go:197-211 | the map and the waits not yet returned correspond one to one, and no two of them are for the same peer of the same bot |
| Rendezvous.BusyKeyIsRefused | internal/weixin/approver.go:199-205 | a wait on a key whose owner has not returned is refused and changes neither the map nor any wait |
| Rendezvous.UnregisterRemovesOwnEntry | internal/weixin/approver.go:207-211 | the deferred delete finds its own wait under its key and removes that entry only |
| Rendezvous.OutcomeIsFinal | internal/weixin/approver.go:187-242 | over any continuation a decided outcome stays, and later offers only pile up behind the first |
| Approver.WeixinApprover.Register | internal/weixin/approver.go:196-205 | the locked test-and-insert is the register step: nil exactly on a busy key, else a fresh channel under it |
| Approver.WeixinApprover.LookUp | internal/weixin/approver.go:166-172 | the locked read of the map is the lookup step and changes nothing |
| Approver.WeixinApprover.Send | internal/weixin/approver.go:173-191 | parsing for the entry's batch size and the non-blocking send are the send step |
| Approver.WeixinApprover.Receive | internal/weixin/approver.go:235-237 | the receive returns the reply that is the wait's outcome |
| Approver.WeixinApprover.GiveUp | internal/weixin/approver.go:223-242 | a failed prompt, a timeout or a stop answers a plain denial and is that step |
| Approver.WeixinApprover.Unregister | internal/weixin/approver.go:207-211 | the deferred delete is the unregister step |
| Approver.RouteBatch | internal/weixin/approver.go:386-411 | the loop over the requests finds the bot, peer and batch size, or denies |
| Approver.BatchReachesItsChat | internal/weixin/approver.go:386-411 | a batch whose requests carry the tape of one peer of one bot is asked of that peer through that bot, with its own size |
| Approver.MixedBatchIsDenied | internal/weixin/approver.go:391-397 | a batch over two tapes is denied |
| ApprovalParser.ParseApprovalIndices | internal/weixin/approver.go:148-163 | the appending loop gives all indices in order, or none when any part is not a number in range |
| ApprovalParser.AtoiNumeral | internal/weixin/approver.go:148-158 | the strings read as a number n are exactly an optional plus sign, zeros and the decimal form of n |
| ApprovalParser.BatchMeaning | internal/weixin/approver.go:107-163 | for every text: which words approve, and items are approved exactly when the reply is a list of valid numbers; every index lies in the batch |
| ApprovalParser.ListApproves | internal/weixin/approver.go:107-163 | every valid list approves exactly its items, shifted to zero base, in order |
| ApprovalParser.BatchRoundTrip | internal/weixin/approver.go:59-163 | numbers in 1..n written with commas, any white space and any `//` comment come back shifted to zero base, with the comment |
| ApprovalParser.SpokenWord | internal/weixin/approver.go:59-101 | a word of letters is understood in any mixture of cases, with any white space around it and any comment after `//`, and the comment is kept |
| ApprovalParser.LargeBatchWraps | internal/weixin/approver.go:148-160 | the bound 2^31 on the batch size is exact: any larger batch has a reply whose 32-bit index is negative |
| Routing.BotByTapeLabel | internal/weixin/bot_runtime.go:82-105 | the scan finds the first bot with the label; a lone bot also answers to none |
| Routing.BotForIff | internal/weixin/bot_runtime.go:82-105 | a label selects exactly the bot that has it, and no label a lone bot |
| Routing.AcceptedIds | internal/weixinlogin/paths.go:11-24 | after trimming, exactly the empty id and those of 1 to 64 ASCII letters, digits, dots, underscores and hyphens that begin with a letter or digit are accepted |
| Routing.TapeRoundTrip | internal/weixin/parse.go:13-33 | for accepted labels and every trimmed peer, the printed tape leads back to the same bot and peer exactly when the label is not `p2p` |
| Routing.ParsedTapeReads | internal/weixin/parse.go:13-33 | the peer and label read from a tape stand there, in one of the two forms of a chat tape |
| Routing.P2pLabelReadsAsLegacy | internal/weixin/parse.go:20-24 | a bot called `p2p` prints tapes that read as legacy tapes of another peer |
| Routing.WaitKeyInjective | internal/weixin/bot_runtime.go:121-127 | wait keys are equal exactly for the same bot and the same trimmed peer |
| Routing.MessageKeyInjective | internal/weixin/parse.go:70-78 | messages with equal dedup keys carry equal ids |
| Routing.ScopedKeyInjective | internal/weixin/bot_runtime.go:129-137 | scoped keys are equal exactly for the same bot and the same raw key |
| Config.ValidateBots | internal/weixin/config.go:146-172 | accepts exactly: at least one bot, ids present and different when several, gateway and token for each |
| Config.WeixinConfig.Finalize | internal/weixin/config.go:109-144 | accepts exactly when every bot can be finalized and the results validate; then the bots are those and the flat keys mirror the first |
| Config.Precedence | internal/weixin/config.go:82-107 | for every setting the credentials file wins over the bot's own over the root's; a named file must be readable and an account id is never left blank |
| Config.CursorsApartWhen | internal/weixin/config.go:109-144 | the accounts of an accepted configuration's bots differ exactly when those they are given do, blank ones being "default" |
| Config.SharedCursor | internal/weixin/syncbuf.go:9-31 | two bots without an account id are accepted and share one cursor |
| Config.NewWeixinBots | internal/weixin/bot_runtime.go:38-74 | one bot per entry with its trimmed settings and an empty token store of its own, or an error exactly when a label is invalid or there is none |
| Config.BotSettings | internal/weixin/bot_runtime.go:43-70 | a bot works with the first gateway, CDN and token that is not blank of the credentials file's, its own and the root's, and with such an account or "default" |
| Config.FlatConfig | internal/weixin/config.go:109-118 | a configuration that lists no bots has one, with the flat settings and no id |
| Config.AcceptedConfigHasLabels | internal/weixin/config.go:109-172 | every accepted configuration builds, and its labels are valid and different |
| Config.AcceptedConfigRoutes | internal/weixin/bot_runtime.go:82-115 | for every accepted configuration, bot and peer, printing and parsing the tape leads back exactly when the id is not `p2p` |
| Config.StartPlugin | internal/weixin/plugin.go:91-107 | the bots and the deduplicator of an accepted configuration stand for the initial state of the bridge with a valid setup |
| Provenance.TokenProvenance | internal/weixin/reply.go:105-151 | in every run whatever is sent to a peer through a bot (reply, text tool, approval prompt) carries a non-blank token this bot received in a private message from this peer in an event before the one that sent it |
| Newest.RememberedIsLastPut | internal/weixin/token_store.go:18-33 | the token remembered for a peer is the one put last, by an arrival or by a reply to a job that carries one, and none exactly when none was put |
| Newest.NewestIff | internal/weixin/reply.go:113-121 | the newest token received is remembered exactly when every later reply to a job of the chat carrying another was followed by one carrying it |
| Newest.OlderTokenReturns | internal/weixin/reply.go:113-121 | two messages before the answer to the first: the answer puts the first token back |
| Provenance.ToolKeepsToItsJob | internal/weixin/send_text_tool.go:69-90 | in a job's context the text tool refuses, under exactly the listed conditions, or sends through the job's bot to the job's peer with the job's token if it has one |
| Provenance.NamedBotIsUsed | internal/weixin/send_text_tool.go:93-125 | outside a job a named bot and peer are the ones used, with the token that bot remembers for that peer, exactly when there is one |
| Provenance.NamedTapeIsUsed | internal/weixin/send_text_tool.go:93-125 | a named tape sends to the chat whose tape it is, exactly when that bot remembers a token for the peer |
| Provenance.OtherwiseRefused | internal/weixin/send_text_tool.go:64-119 | refused: no text, a target inside a job, two targets or none outside one, an unknown bot or no bot where there are several, a tape that is none |
| Provenance.ReplyGoesOut | internal/weixin/reply.go:105-122 | an answer goes to the job's peer through the job's bot with the job's token or else the remembered one, in the first pieces of its plain text |
| Provenance.PromptGoesOut | internal/weixin/approver.go:217-231 | a prompt goes to the peer its wait is for through that bot with the remembered token |
| Duplicates.DroppedIffRepeated | internal/weixin/monitor.go:138-142 | with a steady clock a private message with an id is dropped exactly when the same bot let the same id through less than ttl before; other bots never matter |
| Duplicates.NoIdNeverDropped | internal/weixin/parse.go:70-78 | a message without an id is never dropped |
| Duplicates.DropThreshold | internal/weixin/dedup.go:22-37 | over all runs of at most n events whose clock steps back by at most d between deduplicated messages, duplicates are judged so exactly when d <= 1 or n <= 5001 |
| Jobs.ApprovalsAreRun | internal/weixin/monitor.go:220-223 | the approvals within any run of the bridge make a run of the rendezvous, so all its laws hold there |
| Jobs.HeardOrQueued | internal/weixin/monitor.go:220-251 | a message being resolved is heard by the pending approval of its own bot and peer if there is one and then makes no job; otherwise none hears it and it becomes a job exactly when its sender is allowed |
| Jobs.JobsHaveOrigins | internal/weixin/monitor.go:118-252 | every job was made by its own message, those of one bot in order of arrival: one that passed the deduplicator, was resolved when no wait for its chat was registered, and came from an allowed sender |
| Jobs.JobSays | internal/weixin/monitor.go:118-252 | every job carries its message's own sender, text (a fixed phrase for a blank one), id, token and tape; the message was private, had something to say, and came from a listed sender |
| Jobs.TakenUpIff | internal/weixin/monitor.go:119-205 | a loop goes on with a message exactly when it is private, has text or a reference, and was not dropped |
| Jobs.NeverBoth | internal/weixin/monitor.go:220-251 | no message is both heard by an approval and run as a job |
| Jobs.AnswerCameIn | internal/weixin/approver.go:165-243 | whatever a wait answers other than for want of a reply is the parse of a message that arrived at its own bot from its own peer, passed the deduplicator and made no job: the first message of its chat resolved while it was registered |
| Jobs.JobsOncePerMessage | internal/weixin/monitor.go:138-250 | with a steady clock two jobs of one bot for one message id come from messages at least ttl apart |
| Jobs.JobTapeLeadsBack | internal/weixin/monitor.go:230-247 | a job's tape leads back to the bot and peer of its message exactly when the bot is not called `p2p` |
| Bridge.IsAllowedSender | internal/weixin/parse.go:80-91 | the scan accepts exactly an empty list or a sender listed up to white space |
| Plugin.WeixinPlugin.ReceiveMessage | internal/weixin/monitor.go:118-142 | the handler's first half is the arrival step and says whether the loop goes on |
| Plugin.WeixinPlugin.ResolveMessage | internal/weixin/monitor.go:216-252 | the handler's second half is the resolution step: it finds an approval exactly when one is registered for the chat, and else gives the job of the step |
| Plugin.WeixinPlugin.SendTextToPeer | internal/weixin/reply.go:84-103 | the messages that go out are the first chunks of the text, all of them or those before the send that failed |
| Plugin.WeixinPlugin.ReplyAgentOutput | internal/weixin/reply.go:105-122 | the reply and the update of the token store are the reply step |
| Plugin.WeixinPlugin.ExecSendText | internal/weixin/send_text_tool.go:54-125 | for any context the tool is refused exactly when it has no target and else sends there; with a job's context or none it is the tool step |
| Plugin.WeixinPlugin.AskApproval | internal/weixin/approver.go:196-205 | asking is the registration step: refused exactly when the tape leads nowhere or a wait for the chat is in the map |
| Plugin.WeixinPlugin.SendApprovalPrompt | internal/weixin/approver.go:217-231 | finding the token of the wait's peer and sending the prompt are the prompt step, which goes on waiting exactly when all was sent |
| PollLoop.MonitorLoop | internal/weixin/monitor.go:18-116 | the loop performs exactly the polls, stores and handlings of its specification, and the cell holds the last cursor stored |
| PollLoop.GoodAnswer | internal/weixin/monitor.go:102-114 | a good answer stores and adopts its cursor, adopts its timeout, handles its messages and polls again at once |
| PollLoop.ExpiredAnswer | internal/weixin/monitor.go:76-83 | code -14 in either field handles and stores nothing, counts no failure and pauses for an hour |
| PollLoop.FailedAnswer | internal/weixin/monitor.go:53-101 | a failed poll or any other code handles and stores nothing and waits 2 seconds, or 30 after the third in a row |
| PollLoop.PollingIsBounded | internal/weixin/monitor.go:35-102 | at every poll of every run 34 f <= 3 e + 56 (s + 1) for f failed polls, s successful ones and e seconds, and fewer than three failures are on the count |
| PollLoop.PauseIsKept | internal/weixin/monitor.go:35-83 | in every run no poll after an answer that the session expired starts within an hour of it |
| Delivery.AtMostOnceIff | internal/weixin/monitor.go:104-114 | over any lives, with crashes after any action and whatever the disk does, no message is handled twice, and equally all are handled in log order, exactly when every life that handles anything starts at or past where each before it got |
| Delivery.LeftBehindIff | internal/weixin/syncbuf.go:42-52 | a life leaves its stored cursor short of what it handled exactly when some turn began to handle its messages and neither it nor a later one wrote a cursor before the cut |
| Delivery.AtMostOnce | internal/weixin/monitor.go:104-114 | when no life does so, messages are handled at most once and in log order, and up to the last cursor each is either handled or lost, never both |
| Delivery.WorkingDiskSaves | internal/weixin/monitor.go:107-114 | a disk that takes every cursor is enough for that, since each is stored before its batch is handled |
| Delivery.LifeLaw | internal/weixin/monitor.go:107-114 | a life cut off anywhere has handled the messages from its first cursor on without a gap, and loses only messages past the cursor stored before its last |
| Delivery.NothingLostWithoutCrash | internal/weixin/monitor.go:104-114 | an uncut life that leaves no cursor short handles every message between its first and its last cursor and loses none |
| Delivery.FailedWriteRepeats | internal/weixin/syncbuf.go:42-52 | an input: the only batch cannot have its cursor written, the process stops before another write, and the batch is handled again |
| EndToEnd.EachMessageRunsOnce | internal/weixin/monitor.go:107-114 | over any lives whose loop, bridge and queue fit together, the jobs of a bot ever processed were made of different messages of the log, in its order, when every life starts clear of those before |
| Delivery.EmptyCursorRepeats | internal/weixin/monitor.go:107-110 | a message delivered with an empty cursor is handled again at the next poll |
| Dedup.Deduper.IsDuplicate | internal/weixin/dedup.go:18-37 | the answer and the new map are those of one judged call, whatever order the map is pruned in |
| Dedup.AgreesWithHistory | internal/weixin/dedup.go:18-37 | when no clock read after a prune is more than one unit behind it, every answer is that of a history never pruned |
| Dedup.NeverPruned | internal/weixin/dedup.go:29-35 | as long as nothing is pruned, map and answers are the history's whatever the clock does |
| Dedup.AgreementThreshold | internal/weixin/dedup.go:22-37 | over all sequences of at most n calls that step back by at most d the answers are the history's exactly when d <= 1 or n <= 5001 |
| Dedup.HistoryMeaning | internal/weixin/dedup.go:25-28 | the history calls a call a duplicate exactly when one with its id was let through less than ttl before, whatever the clock does |
| Dedup.DuplicateIff | internal/weixin/dedup.go:18-37 | with a steady clock a call is a duplicate exactly when an earlier accepted call had its id less than ttl ago |
| Dedup.AcceptedApart | internal/weixin/dedup.go:25-28 | with a steady clock accepted calls with one id are at least ttl apart |
| Dedup.LargeMapIsRecent | internal/weixin/dedup.go:29-35 | after an accepted call a map of more than 5000 entries holds none older than ttl |
| JobQueue.QueueSafety | internal/weixin/queue.go:45-80 | one worker at most ever, at most 64 jobs buffered, and processed, current and buffered jobs are exactly those sent, in order |
| JobQueue.PerBotOrder | internal/weixin/queue.go:45-61 | jobs of one bot are processed in the order accepted |
| JobQueue.Drain | internal/weixin/queue.go:63-80 | after the close the worker finishes in a known number of steps, every job sent before processed exactly once, in order |
| JobQueue.StoppedMeansProcessed | internal/weixin/queue.go:63-80 | whenever the worker is gone nothing sent is left over, and it goes only after the close |
| JobQueue.QueueManager.Accept | internal/weixin/queue.go:49-59 | the locked part of an enqueue is the enqueue step and starts the worker exactly once |
| JobQueue.QueueManager.SendJob | internal/weixin/queue.go:60 | the channel send is the send step, which panics exactly on a closed channel |
| JobQueue.ShutdownSafeIff | internal/weixin/queue.go:45-71 | a shutdown can be followed by a send on the closed channel exactly when an enqueue was still waiting to send when it closed |
| JobQueue.QueueManager.Shutdown | internal/weixin/queue.go:63-71 | the shutdown is the close step, at any time, and does nothing a second time |
| JobQueue.QueueManager.TakeJob | internal/weixin/queue.go:73-80 | the worker's receive is the take step, or the exit step on a closed empty channel |
| RecentMedia.KeptIsLast20 | internal/weixin/media_download.go:135-163 | after any saves and pops over any peers, what is kept is the last 20 of all saved for the peer since its last pop |
| RecentMedia.MediaCache.PopRecentMedia | internal/weixin/media_download.go:154-163 | a pop gives the last 20 of all that was saved for the peer since its last pop, over the saves and pops made on this cache |
| MediaCipher.Pkcs7Unpad | internal/weixin/cdn_download.go:32-46 | the scan accepts exactly well-padded data and cuts the padding off |
| MediaCipher.UnpadInvertsPad | internal/weixin/cdn_upload.go:54-59 | on block-aligned data unpadding gives y exactly when the data is y padded |
| MediaCipher.PaddingIs | internal/weixin/cdn_upload.go:54-58 | the padding is 1 to 16 bytes, each holding their number, up to whole blocks |
| MediaCipher.RunBlocks | internal/weixin/cdn_upload.go:69-74 | the block loop fills the buffer with the blockwise image of the input |
| MediaCipher.EncryptAesEcb | internal/weixin/cdn_upload.go:61-75 | the encryption as specified, an error for a key of another length |
| MediaCipher.DecryptAesEcb | internal/weixin/cdn_download.go:16-30 | the decryption as specified, with its error cases |
| MediaCipher.DecryptInvertsEncrypt | internal/weixin/cdn_upload.go:61-83 | for every file and key the ciphertext has the announced length and decrypts to the file |
| MediaCipher.EncryptedBlocks | internal/weixin/cdn_upload.go:61-74 | encryption succeeds exactly with 16, 24 or 32 key bytes, and maps each padded block by the cipher |
| MediaCipher.DecryptOnlyEncryptions | internal/weixin/cdn_download.go:16-46 | bytes decrypt to y exactly when they are the encryption of y |
| AesKey.HexRoundTrip | internal/weixin/cdn_download.go:111-114 | hexadecimal decoding inverts encoding |
| AesKey.B64RoundTrip | internal/weixin/cdn_download.go:115-119 | base64 decoding inverts encoding |
| AesKey.Alphabets | internal/weixin/cdn_download.go:111-119 | the digits of both encodings are those of their standard |
| AesKey.Vectors | internal/weixin/cdn_download.go:111-119 | the standard's test vectors |
| AesKey.KeyHas16Bytes | internal/weixin/cdn_download.go:105-128 | every decoded key has 16 bytes |
| AesKey.KeyRoundTrip | internal/weixin/cdn_download.go:105-128 | every key comes back from its hex form, the base64 of that form, and its plain base64 form |
| AesKey.PaddedKey | internal/weixin/cdn_download.go:105-119 | white-space runes around an encoded key do not matter |
| AesKey.RawKeyKept | internal/weixin/cdn_download.go:104-110 | sixteen raw bytes are the key exactly when they neither begin nor end with a white-space rune, and are refused otherwise |
| AesKey.MediaRoundTrip | internal/weixin/send_file_tool.go:108-109 | decoding the announced key and decrypting the uploaded bytes gives every file back |
| CdnUpload.UploadBufferToCdn | internal/weixin/cdn_upload.go:85-171 | succeeds with a parameter exactly when the key is accepted, there is a URL, and one of the first three posts of the encrypted file is accepted with it, all before it asking for another |
| CdnUpload.UploadURLIs | internal/weixin/cdn_upload.go:95-109 | the full URL when given, else one of the server and the parameter, else none |
| CdnUpload.UploadBuffer | internal/weixin/cdn_upload.go:111-170 | succeeds with a parameter exactly when one of the first three attempts answers 200 with it and all before were worth another; stops at the first that is not |
| PlainText.MarkdownToPlainText | internal/weixin/reply.go:30-51 | the reassigning loop computes the plain text in as many rounds as the specification counts |
| PlainText.StripFencesFixpoint | internal/weixin/reply.go:32-47 | at most n/6 rounds on n runes, no two disjoint fences left even when a removal makes new ones, and runes are only removed |
| PlainText.FencedBlock | internal/weixin/reply.go:32-47 | of a fenced block the trimmed code stays, fences and language line go, and the text around it is untouched |
| PlainText.RunsHalve | internal/weixin/reply.go:48-49 | of a run of marks one stays exactly when their number is odd |
| PlainText.PlainOnlyRemoves | internal/weixin/reply.go:30-51 | the result is a trimmed subsequence of the input with no two adjacent underscores |
| PlainText.PlainTwice | internal/weixin/reply.go:30-51 | stripping the result again changes nothing exactly when it holds no two disjoint fences and no two adjacent asterisks |
| PlainText.PlainTwiceDiffers | internal/weixin/reply.go:48-50 | a text whose result changes when stripped again |
| PlainText.ChunksCover | internal/weixin/reply.go:89-95 | the chunks concatenate to the text, each has 1 to 4000 runes, and all but the last have 4000 |
| PlainText.UnmarkedText | internal/weixin/reply.go:15-27 | text without marks goes out unchanged up to 80000 runes, a prompt up to 12000, and beyond that cut there and marked |
| PlainText.SendPlainTextChunks | internal/weixin/reply.go:84-103 | what is sent is all chunks, or exactly those before the first failing send |
| PlainText.ChunkBounds | internal/weixin/reply.go:138-151 | at most 21 messages for any reply and 4 for any approval prompt |
| PlainText.ChunkBoundsReached | internal/weixin/reply.go:13-27 | both bounds are reached |
| SessionSearch.FindSession | internal/weixin/session_supplement.go:88-131 | whatever the iteration order: empty exactly when nothing usable is reachable, else a usable reachable value, and an object's own keys win |
| SessionSearch.SessionKeys | internal/weixin/session_supplement.go:149-164 | the keys that count, in any mixture of cases and with hyphens for underscores |
| SessionSearch.UsableValues | internal/weixin/session_supplement.go:191-212 | text, trimmed, and numbers, in decimal, can be used, and nothing else |
| SessionSearch.FoundNested | internal/weixin/session_supplement.go:88-131 | an id one object deep, or in an array of objects, is found |
| SessionSearch.SessionFromGetConfig | internal/weixin/session_supplement.go:168-189 | the second lookup under `data` never changes the result |
| SessionSearch.Inbound.Supplement | internal/weixin/session_supplement.go:37-52 | only a message without a session id is given one, found in its raw form, and nothing else in it changes |
| QrLogin.Run | internal/weixinlogin/login.go:61-162 | at most 4 requests for a code and ceil(wait) polls, none after the deadline, each with the latest code; it succeeds exactly when some round is reached in time that confirms the login, with what that round said, and otherwise fails for exactly the reason given |
| QrLogin.GatewayIs | internal/weixinlogin/login.go:62-68 | the gateway reported is the server's, else the API address without its last slash, else the default |

## Left out

- HTTP calls, headers, JSON encoding and decoding, RPC to the host, file reads, terminal drawing and flags: foreign code; their results are arbitrary inputs.
- The internals of AES, MD5 and random ids: the block cipher is any family of invertible 16-byte maps.
- Prompt, log and approval texts, tool schemas, MIME tables, file paths: string building without a deep property.
- Plugin.WeixinPlugin.ReceiveMessage: the message comes with the text of its items and whether it refers to another; remembered sessions and the prefetch of one are not modelled, being a store of the same shape as the tokens.
- Plugin.WeixinPlugin.ResolveMessage: saving attachments, and falling back to recent media for an empty reference, are not part of it; the cache they use is `RecentMedia`.
- The parse and send that follow a lookup are a step of their own, `Approver.WeixinApprover.Send`, which comes before the next message of that bot.
- The file tool: it chooses bot, peer and token like the text tool; its uploads are modelled by `MediaCipher` and `CdnUpload` only.
- Typing tickets: a cache without a further property.
- Non-string tool arguments: the code prints them first; the model takes the printed text.
- Config.StartPlugin: parsing the configuration, the run context and starting one loop per bot are not part of it.
- Provenance.TokenProvenance: assumes the host hands a job's context back unchanged and the bots' labels were accepted.
- Delivery.AtMostOnceIff: assumes that accounts are distinct; what happens otherwise is in `Config.SharedCursor`.
- Account ids with path separators, which cleaning of paths could bring together.
- Appending the padding may reuse the caller's buffer in the code; Pad works on values and does not show this aliasing.
- Case folding is modelled for ASCII letters and the two non-ASCII runes whose lower case is ASCII; other runes are kept, which changes no word the parsers look for.
- Invalid UTF-8: text is a sequence of valid runes; only the key field is modelled on bytes.
- The conversion of a JSON number that is no 64-bit integer: the integer it converts to is part of the value in `SessionSearch`.
- A second Init on a live plugin, and finalizing a configuration twice.
