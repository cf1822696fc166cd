# wecom-gpt in Dafny

wecom-gpt is a gateway between WeCom (enterprise WeChat) applications and an
LLM chat API. WeCom posts an encrypted callback for every message a user sends
to an application. The gateway does the following with each one:

- checks the callback's signature and decrypts it;
- registers the sender as a guest on first contact;
- answers administrator instructions (`$$<name> 充值 <amount>$$`,
  `$$<name> 管理员 <flag>$$`, `$$查用户$$`) and user instructions (`#查余额`,
  `#查消耗`, `#新会话`);
- otherwise refuses an overdrawn guest, or sends the guest's active
  conversation to the provider, stores the guest's message and the reply,
  and debits the reply's cost from the guest's credit.

The repository holds several generations of the store, the provider client
and the conversation code side by side. Each is modelled as written, without
reconciling them.

One Dafny module models each source file:

- `Core`: src/core.rs
- `ProviderOpenAi`: src/provider/openai.rs
- `Storage`: src/storage/agent.rs
- `Assistant`: src/assistant.rs
- `Crypto`: src/crypto.rs
- `Accountant`: src/accountant.rs
- `Reception`: src/reception.rs
- `ReceptionCore`: src/reception/core.rs
- `ReceptionGuest`: src/reception/guest.rs
- `ReceptionDbAgent`: src/reception/database/agent.rs
- `ReceptionDatabase`: src/reception/database.rs
- `ReceptionOpenAi`: src/reception/providers/openai.rs
- `OpenAiLegacy`: src/openai.rs
- `WecomApi`: record shapes of src/wecom_api.rs

Three further modules hold shared definitions:

- `Common`: option, result and panic outcomes, and the integer casts.
- `Strings`: the `str` operations the source uses (trim, split, prefix tests).
- `Rows`: table rows, and the sort by `created_at` and the filters that the
  queries use.

Modelling choices:

- **Stores.** Each store is a class whose tables are sequence fields. A SQL
  query becomes a function over those sequences, and an insert or update
  reassigns them.
- **Ids and time.** `AUTOINCREMENT` ids are counters. `Utc::now()` is a
  logical clock that strictly increases, so ordering by `created_at` is
  ordering by insertion.
- **Opaque primitives as parameters.** Cryptography, codecs, XML/JSON
  parsing, the provider's HTTP call, the environment and number formatting
  are function-valued parameters. Their semantics are opaque to the model.
- **Panics.** An `unwrap` or `expect` that can fail is modelled as the
  explicit outcome `Panics`, never as a precondition.
- **Numbers.** Credit and cost are `real`. A Rust `as` cast to `i32`, `u32`
  or `usize` is written out as a wrap-around, in `Common`.
- **The provider call.** `src/assistant.rs:164` calls the provider's `process`
  with one argument, and `src/provider/openai.rs:238` declares two. The model
  follows the call site: the assistant receives a single function from the
  request to a response or an error.

## Model

| member | source | states |
|---|---|---|
| Common.AsI32 | src/storage/agent.rs:354-355 | `as i32` on a non-negative count gives the value congruent to it modulo 2^32 in the signed 32-bit range, and the count itself when it is below 2^31 |
| Common.AsU32 | src/crypto.rs:52 | `as u32` keeps the value modulo 2^32, and the value itself when it is below 2^32 |
| Common.AsUsize | src/reception/database/agent.rs:18 | `as usize` on an i32 keeps non-negative values and wraps negative ones around 2^64 |
| Common.AsUsizeAsI32 | src/reception/database/agent.rs:96 | casting an i32 to usize and back gives the original value |
| Common.RealSumAppend | src/reception/core.rs:45-47 | a left fold that sums a real-valued field is additive over a concatenation; `Conversation::cost` of both message types and the cost fold of `audit` are this fold |
| Strings.LeadingCount | src/reception.rs:256 | counts exactly the leading characters that are stripped |
| Strings.TrailingCount | src/reception.rs:256 | counts exactly the trailing characters that are stripped |
| Strings.Trim | src/reception.rs:256 | `trim` leaves no White_Space at either end and keeps only characters of the input; `TrimWrapped` and `TrimAllWhitespace` pin down its value |
| Strings.TrimWrapped | src/reception.rs:256 | a text wrapped in runs of White_Space trims back to that text when its own first and last characters are not White_Space |
| Strings.TrimAllWhitespace | src/reception.rs:256 | a text made only of White_Space trims to the empty string |
| Strings.TrimMatches | src/reception.rs:364 | `trim_matches('$')` leaves no '$' at either end |
| Strings.TrimMatchesWrapped | src/reception.rs:364 | trimming a character off a text wrapped in runs of it gives back the text when the text neither starts nor ends with it |
| Strings.TrimMatchesAll | src/reception.rs:364 | a text made only of the trimmed character trims to the empty string |
| Strings.Split | src/reception.rs:365 | `split(' ')` yields at least one piece and no piece contains the separator |
| Strings.JoinSplit | src/reception.rs:365 | joining the pieces of a split with the separator gives back the input |
| Strings.SplitJoin | src/reception.rs:365 | splitting pieces free of the separator after joining them gives back the pieces |
| Strings.SplitNoSeparator | src/reception.rs:365 | a text without the separator splits into itself alone |
| Strings.SplitPrefix | src/reception.rs:365 | a separator-free prefix is glued onto the first piece of the rest |
| Rows.InsertSorted | src/storage/agent.rs:299 | inserting into a sequence sorted by key keeps it sorted |
| Rows.SortByPermutes | src/storage/agent.rs:299 | `sort_by` on `created_at` only rearranges the rows |
| Rows.SortBySorted | src/storage/agent.rs:299 | `sort_by` on `created_at` orders the rows by that key |
| Rows.SortByIdentity | src/storage/agent.rs:299 | rows already in key order are left exactly as they are, so the stable sort keeps insertion order among equal keys |
| Rows.FilterMembers | src/storage/agent.rs:295-298 | a `belonging_to` query keeps exactly the rows that satisfy its condition |
| Rows.FilterAppend | src/storage/agent.rs:295-298 | querying a table with rows appended gives the old answer followed by the matching new rows |
| Rows.FilterSorted | src/storage/agent.rs:295-299 | a query over a table in `created_at` order returns rows in that order |
| Rows.First | src/storage/agent.rs:166-170 | `.first()` of a filtered query finds a matching row, or reports none only when no row matches |
| Rows.FirstIn | src/storage/agent.rs:166-170 | the row `.first()` finds is a row of the table |
| Rows.FilterNone | src/storage/agent.rs:295-298 | a query that no row satisfies returns nothing |
| Rows.FirstOnlyLast | src/storage/agent.rs:282-287 | when only the last row matches, `.first()` finds it |
| Rows.FilterPairwise | src/reception/database.rs:214-228 | deleting rows keeps every property that holds between each two rows, such as distinct ids |
| Rows.SortedFilterAppend | src/reception/database.rs:428-438 | a matching row stamped no earlier than the rest ends the sorted query result |
| Rows.FilterDropsOne | src/reception/database.rs:214-228 | deleting by a key that exactly one row has removes exactly one row |
| Rows.FilterAll | src/reception/database.rs:388-395 | deleting by a key that no row has changes nothing |
| Core.ContentTypeToId | src/core.rs:16-24 | every id lies in 1..5, and id 1 is exactly Text |
| Core.ContentTypeIdInjective | src/core.rs:16-24 | distinct content types have distinct ids |
| Core.ContentTypeIdSurjective | src/core.rs:16-24 | every id in 1..5 is the id of some content type |
| ProviderOpenAi.RoleToId | src/provider/openai.rs:119-129 | every role id lies in 1..5 |
| ProviderOpenAi.RoleFromId | src/provider/openai.rs:145-157 | exactly the ids 1..5 are accepted, each as the role whose `to_id` it is; any other id gives "Unknown chat role" |
| ProviderOpenAi.RoleIdRoundTrip | src/provider/openai.rs:119-157 | reading back the id of a role gives the role |
| ProviderOpenAi.RoleFromName | src/provider/openai.rs:131-143 | exactly "system", "user", "assistant", "tool" and "function" are accepted, each as the role whose `to_string` it is; any other text gives "Unknown chat role" |
| ProviderOpenAi.RoleNameRoundTrip | src/provider/openai.rs:131-169 | parsing the wire name that `RoleName` gives a role returns that role |
| ProviderOpenAi.ResponseContent | src/provider/openai.rs:60-66 | the first choice's content, or "" when there is no choice |
| ProviderOpenAi.ResponseRole | src/provider/openai.rs:68-74 | System when there is no choice. Otherwise it returns exactly when the first choice's role name parses, and then yields the role with that name; an unknown name panics |
| ProviderOpenAi.PromptTokens | src/provider/openai.rs:76-79 | the usage's prompt-token count, unchanged |
| ProviderOpenAi.CompletionTokens | src/provider/openai.rs:81-84 | the usage's completion-token count, unchanged |
| ProviderOpenAi.MaxTokens | src/provider/openai.rs:233-235 | the configured context ceiling, unchanged |
| ProviderOpenAi.Cost | src/provider/openai.rs:270-274 | the cost is `Price`, the per-1000-token price, of the response's prompt and completion counts |
| ProviderOpenAi.CostOfNoTokens | src/provider/openai.rs:270-274 | a response that used no tokens costs nothing |
| ProviderOpenAi.CostMonotone | src/provider/openai.rs:270-274 | with non-negative prices the cost is non-negative and never drops when either count grows |
| ProviderOpenAi.CostAdditive | src/provider/openai.rs:270-274 | billing two exchanges separately costs the same as billing their summed counts |
| ProviderOpenAi.FromStoredMessage | src/provider/openai.rs:178-187 | returns exactly when the stored `message_type` is in 1..5, and then copies the content and names the role whose id is that `message_type`; other ids panic |
| Crypto.LexLeTotal | src/crypto.rs:19-20 | any two strings are comparable in the byte order `sort_unstable` uses |
| Crypto.LexLeAntisymmetric | src/crypto.rs:19-20 | two strings each no greater than the other are equal, so sorting cannot tell them apart |
| Crypto.LexLeTransitive | src/crypto.rs:19-20 | the byte order on strings is transitive |
| Crypto.InsertStringSorted | src/crypto.rs:19-20 | inserting into a sorted sequence keeps it sorted |
| Crypto.SortStringsCorrect | src/crypto.rs:19-20 | sorting yields a sorted permutation of its input |
| Crypto.SortedUnique | src/crypto.rs:19-20 | two sorted sequences with the same elements are equal, so the sorted order of the inputs is unique |
| Crypto.SortPermutationInvariant | src/crypto.rs:19-20 | sorting two permutations of each other gives the same sequence |
| Crypto.CheckSignatureSorted | src/crypto.rs:12-24 | `CheckSignature` (`check_signature`) accepts a signature exactly when it equals the lowercase-hex SHA-1 of the four inputs concatenated in sorted order, as `SignatureOf` computes it |
| Crypto.SignaturePermutationInvariant | src/crypto.rs:12-24 | the verdict is the same for every ordering of (timestamp, nonce, token, msg) |
| Crypto.SortExample | src/crypto.rs:87-98 | the inputs "0", "c", "a", "b" sort to "0", "a", "b", "c" |
| Crypto.SignatureInputExample | src/crypto.rs:87-98 | for the inputs "0", "c", "a", "b" the digest is taken over "0abc" |
| Crypto.ConcatExample | src/crypto.rs:87-98 | the sorted inputs "0", "a", "b", "c" concatenate to "0abc" |
| Crypto.ToBigEndianRoundTrip | src/crypto.rs:52 | reading back k big-endian bytes of a number below 256^k gives the number |
| Crypto.FromBigEndianRoundTrip | src/crypto.rs:76 | writing a read value back with the same width gives the same bytes |
| Crypto.BigEndian32RoundTrip | src/crypto.rs:52 | `u32::from_be_bytes` inverts `u32::to_be_bytes` |
| Crypto.FromBigEndian32RoundTrip | src/crypto.rs:76 | `u32::to_be_bytes` inverts `u32::from_be_bytes` on four bytes |
| Crypto.BlockLayout | src/crypto.rs:46-58 | the plaintext `Block` of `encrypt` is 16 random bytes, then the 4-byte big-endian text length, then the text, then the receiver id; its length is 20 + text + receiver id |
| Crypto.Encrypt | src/crypto.rs:44-67 | returns the base64 of the sealed block and of the nonce; a failed seal panics |
| Crypto.Decrypt | src/crypto.rs:70-80 | a base64 failure on either input, and nothing else, gives Base64Error. A decoded nonce that is not 12 bytes long panics, a failed open panics, and a successful open gives `ParseBlock` of the opened block |
| Crypto.ParseBlock | src/crypto.rs:75-79 | panics exactly when the block is shorter than 20 bytes or than 20 + the length read at bytes 16..20. Otherwise it succeeds exactly when both UTF-8 decodes succeed, decoding bytes [20, 20+len) as the text and the rest as the receiver id, and fails with Utf8Error and nothing else |
| Crypto.ParseBlockRoundTrip | src/crypto.rs:44-80 | parsing a framed block returns the framed text and receiver id when the text is shorter than 2^32 bytes |
| Crypto.LongTextLengthWraps | src/crypto.rs:52 | for a text of 2^32 bytes or more, the length field holds the length modulo 2^32, which is shorter than the text |
| Crypto.EncryptDecryptRoundTrip | src/crypto.rs:101-111 | `decrypt(encrypt(s)) == s` for a text shorter than 2^32 bytes, when base64, UTF-8 and AES each invert their encoding |
| Crypto.NewCipher | src/crypto.rs:37-41 | a cipher is built exactly when the key is 32 bytes long; any other length panics |
| Storage.GuestByName | src/storage/agent.rs:166-170 | the row found carries the requested name; when none is found, no row of the table has that name |
| Storage.ActiveConversation | src/storage/agent.rs:282-287 | the row found is active and belongs to the (guest, assistant) pair; when none is found, no row is active for that pair |
| Storage.GuestsOf | src/storage/agent.rs:145-155 | one `core::Guest` per stored row, in table order, each built by `ToGuest` copying name, credit and admin |
| Storage.Deactivate | src/storage/agent.rs:216-232 | exactly the active rows of the pair become inactive and take the new `updated_at`; all other rows and the row count are unchanged |
| Storage.SetGuest | src/storage/agent.rs:185-192 | the rows named `name` take the given absolute credit and admin flag; every other row is unchanged |
| Storage.CreateKeepsOneActive | src/storage/agent.rs:216-251 | deactivating a pair and then inserting an active row for it keeps at most one active conversation per (guest, assistant) pair |
| Storage.ActiveIdOf | src/storage/agent.rs:316-341 | a conversation id is found exactly when the guest exists and has an active conversation with the assistant |
| Storage.ConversationOf | src/storage/agent.rs:261-302 | the query fails with "Record not found" exactly when the guest or their active conversation is missing; otherwise it returns that conversation's messages ordered by `created_at` |
| Storage.AppendExtendsConversation | src/storage/agent.rs:256-369 | after a message is appended to the active conversation, `get_conversation` returns the earlier result with that message at the end |
| Storage.AppendSorted | src/storage/agent.rs:344-366 | a message stamped no earlier than every stored message keeps the table in `created_at` order |
| Storage.StorageAgent.Empty | src/storage/agent.rs:46-53 | after the migrations on a new file, all tables are empty and the init record is absent |
| Storage.StorageAgent.Open | src/storage/agent.rs:39-110 | an initialised store is left unchanged. Otherwise exactly the administrator row (id 1, given name, credit 0, admin) and the init record are added; a clash on id or name is a Database error that adds nothing |
| Storage.StorageAgent.CreateUser | src/storage/agent.rs:113-136 | succeeds exactly when no guest has the name, and then appends one row with the given name, credit and admin flag; a duplicate name is a Database error that leaves the table unchanged |
| Storage.StorageAgent.GetUsers | src/storage/agent.rs:139-157 | always succeeds and returns every guest in insertion order, with name, credit and admin copied |
| Storage.StorageAgent.GetUser | src/storage/agent.rs:160-176 | fails with NotFound exactly when no guest has the name; otherwise returns a stored guest with that name |
| Storage.StorageAgent.UpdateUser | src/storage/agent.rs:179-194 | sets credit and admin of the named guest to the given absolute values; other guests and the other tables are unchanged |
| Storage.StorageAgent.CreateConversation | src/storage/agent.rs:198-253 | fails, changing nothing, exactly when the guest is missing. Otherwise only the pair's active rows are deactivated and one new active row is appended, so at most one conversation per pair stays active and `get_conversation` is then empty |
| Storage.StorageAgent.GetConversation | src/storage/agent.rs:256-303 | fails exactly when the guest or the pair's active conversation is missing; otherwise returns that conversation's messages ordered by `created_at` |
| Storage.StorageAgent.AppendMessage | src/storage/agent.rs:306-369 | NotFound and no change when the guest or active conversation is missing; a panic on an unknown role name. Otherwise exactly one row is appended to the active conversation, with the role id, text content type, cost and both token counts cast to i32 |
| Storage.StorageAgent.Tick | src/storage/agent.rs:121 | each timestamp is later than the one before |
| Assistant.SumOfAppend | src/assistant.rs:240-243 | the token folds of `audit` are additive over a concatenation |
| Assistant.SumCostAppend | src/assistant.rs:244 | the cost fold of `audit` is additive over a concatenation |
| Assistant.DroppedTokensStep | src/assistant.rs:128-129 | dropping one more message adds exactly its prompt and completion tokens to the dropped count |
| Assistant.DropFrom | src/assistant.rs:126-132 | the number of messages the loop drops: every earlier stop point still had more than two messages and fewer dropped tokens than the budget, and at the result one of the two stop conditions holds |
| Assistant.TrimmedShape | src/assistant.rs:124-133 | `Trimmed` leaves histories shorter than 3 unchanged. Otherwise the first and the last message are kept, at least two messages remain, order is preserved, and the removed messages are a contiguous run right after the first |
| Assistant.TrimmedStopsAtBudget | src/assistant.rs:124-133 | the loop stops as soon as the dropped messages carry at least the reservation or only two remain, and not earlier |
| Assistant.TrimmedNothingWithoutBudget | src/assistant.rs:126 | a reservation that is zero or negative after the `as i32` cast trims nothing |
| Assistant.ConvertAll | src/assistant.rs:137-139 | converts every stored row exactly when all `message_type`s are known roles, copying each row through `Message::from`; otherwise it panics |
| Assistant.WithSystemPrompt | src/assistant.rs:141-155 | a list that opens with a non-system message gets the assistant's prompt prepended as a system message; an empty list and a list that already opens with a system message are returned unchanged |
| Assistant.Request | src/assistant.rs:136-161 | the request succeeds exactly when every kept row has a known role. It is then the trimmed history, converted row by row and given the system prompt as above, followed by the user message holding the incoming text |
| Assistant.FirstExchangeWithoutPrompt | src/assistant.rs:141-161 | on an empty history the provider receives the guest's message alone, without the system prompt |
| Assistant.Assistant.constructor | src/assistant.rs:68-77 | the assistant keeps the configured agent id, prompt and reservation, the provider configuration and the store |
| Assistant.Assistant.TrimContext | src/assistant.rs:124-133 | the loop that removes index 1 leaves exactly the trimmed history defined above, with the reservation read through `as i32` |
| Assistant.Assistant.Append | src/assistant.rs:180-207 | on the active conversation with a known role, `append_message` adds exactly one row carrying the message, its cost and its token counts, and changes nothing else |
| Assistant.Assistant.RecordExchange | src/assistant.rs:175-213 | the guest's message is stored first, with cost 0 and no tokens. Then the reply is stored with the provider's role, content, cost and token counts, and the returned reply carries that same content and cost. An unknown reply role panics after the first append |
| Assistant.Assistant.ActiveHistory | src/assistant.rs:87-106 | returns the active conversation's messages. When there is none it first creates one and returns it empty; when the guest is unknown it fails without creating anything |
| Assistant.Assistant.BuildRequest | src/assistant.rs:124-161 | builds exactly the request defined above from the stored history |
| Assistant.Assistant.Chat | src/assistant.rs:82-214 | an unknown guest gives StorageError and changes nothing. A provider error gives ProviderError and stores nothing. On success exactly two messages are appended to the active conversation, in order (user text, then reply), and the reply's content and cost are returned |
| Assistant.Assistant.Audit | src/assistant.rs:217-246 | the report holds the last message's prompt+completion tokens and the sums of prompt tokens, completion tokens and cost over the active conversation. An empty conversation panics, and an unknown guest gets the internal-error text |
| Assistant.Assistant.NewConversation | src/assistant.rs:249-254 | fails exactly when the guest is unknown; otherwise the active conversation is now empty |
| Accountant.CreationRequest | src/accountant.rs:82-104 | a user id comes out exactly when the body parses, the signature over (timestamp, nonce, encrypted text) matches (`Signed`), decryption succeeds and the inner event parses; that id is the event's `UserID` |
| Accountant.TamperedCallbackRefused | src/accountant.rs:86-96 | a callback whose signature does not match is refused with the signature error, whatever its content |
| Accountant.Standing | src/accountant.rs:124-136 | the three-way classification is exhaustive: NotFound exactly when no row has the name, Overdue (carrying the credit) exactly when credit ≤ 0, Ok exactly when credit > 0 |
| Accountant.Accountant.constructor | src/accountant.rs:45-52 | the accountant keeps the configured agent id and the store, and builds its crypto agent from the configured token and key |
| Accountant.Accountant.VerifyGuest | src/accountant.rs:125-136 | agrees with the classification above; any store failure counts as NotFound |
| Accountant.Accountant.GetGuest | src/accountant.rs:139-143 | NotFound exactly when no guest has the name; otherwise the stored guest |
| Accountant.Accountant.Register | src/accountant.rs:118-122 | the effect of the store's `create_user`: succeeds exactly on a new name, appending that guest; a store error becomes Internal and changes nothing |
| Accountant.Accountant.UpdateGuest | src/accountant.rs:146-150 | the effect of the store's `update_user`: the named guest takes the given credit and admin flag, others are unchanged |
| Accountant.Accountant.HandleUserCreationEvent | src/accountant.rs:77-115 | a failure of any of the four callback checks returns Internal and leaves the store untouched. Otherwise the named user is registered with credit 0 and no admin right, and an existing name is an Internal error that adds nothing |
| Accountant.Accountant.VerifyUrl | src/accountant.rs:60-74 | the decrypted echo text is returned exactly when the signature matches and decryption succeeds; a signature mismatch gives the signature error |
| Reception.Fetch | src/reception.rs:69-79 | reading a variable succeeds exactly when it is set, and otherwise fails with "找不到环境变量" followed by the variable's name |
| Reception.FirstMissing | src/reception.rs:76-123 | the name reported is an unset one, and none is reported exactly when every name is set |
| Reception.FirstMissingAppend | src/reception.rs:90-122 | the first unset name of two lists read one after the other is the first list's, or else the second's |
| Reception.SetupVarsWithoutAssistants | src/reception.rs:90-122 | with no assistants configured the corporation id is never read, only the accountant's token and key |
| Reception.CryptoAgentsKeys | src/reception.rs:90-95 | every configured assistant, and nothing else, gets a crypto agent under its agent id |
| Reception.WithProvidersKeys | src/reception.rs:104-116 | the provider loop adds an assistant under the agent id exactly when some provider has the configured id |
| Reception.AssistantsKeys | src/reception.rs:90-117 | an assistant exists exactly for the configured applications whose provider is configured |
| Reception.CryptoAgentOfEach | src/reception.rs:93-95 | with distinct agent ids, each application's crypto agent is built from its own token and key |
| Reception.ParseBool | src/reception.rs:399-401 | a flag parses exactly when it reads "true" or "false" |
| Reception.ParseBoolRoundTrip | src/reception.rs:399-401 | a flag printed as text parses back to itself |
| Reception.CommandForms | src/reception.rs:256-257 | `IsCommand` holds for any text that starts with '#' and for any text wrapped in "$$", whatever White_Space surrounds it |
| Reception.ChatForm | src/reception.rs:256-257 | a text whose first character is neither '#', '$' nor White_Space is not an instruction |
| Reception.ParseTopUp | src/reception.rs:363-379 | `ParseAdminCommand` reads "$$<name> 充值 <amount>$$" as a top-up of that guest by that amount |
| Reception.InstructionArgs | src/reception.rs:364-365 | after stripping the '$' signs and splitting at spaces, an instruction of three space-free words yields those three words |
| Reception.JoinThree | src/reception.rs:365 | three words joined by spaces are the words with a space between each |
| Reception.SplitThree | src/reception.rs:365 | three space-free words joined by spaces split back into those words |
| Reception.ListingAppend | src/reception.rs:373-377 | the `Listing` of two lists of guests, each guest written by `GuestLine` as name, balance and admin flag, is the first listing followed by the second |
| Reception.WriteListing | src/reception.rs:373-377 | the loop writes, for every guest in order, the name, balance and admin flag |
| Reception.TopUpAddsCredit | src/reception.rs:379-397 | in `AdminOutcome`, a top-up writes the guest exactly when the amount parses and the guest exists, adding the amount to the stored balance and keeping the admin flag |
| Reception.SetAdminKeepsCredit | src/reception.rs:398-421 | setting the admin flag writes the guest exactly when the flag parses and the guest exists, keeping the balance and setting the flag |
| Reception.Agent.constructor | src/reception.rs:125-130 | the desk holds the assistants, crypto agents, messengers and accountant it was built with |
| Reception.Agent.VerifyUrl | src/reception.rs:134-169 | the contact-directory application is answered by the accountant with a failure as 400; any other application without a crypto agent gets 500, a bad signature 400, an undecryptable echo 500, and otherwise the decrypted echo text |
| Reception.Agent.Incoming | src/reception.rs:179-219 | a message comes through only when the body parses, the application has a crypto agent, the signature matches and the text decrypts and parses; any failure ends the request |
| Reception.Agent.Admit | src/reception.rs:222-249 | an unknown sender is registered with no credit and no admin flag, a known one is left as is; the sender is then found, and the overdue amount is the stored balance when it is zero or less, else 0 |
| Reception.Agent.Converse | src/reception.rs:265-294 | a negative balance is refused and nothing changes. Otherwise, with the application's assistant, the outcome is that assistant's `Answer` to the text over the guest's active conversation (`History`): a failed chat is ignored and leaves the guests unchanged, and a reply sends its content and charges the guest exactly its cost. A missing assistant sends nothing |
| Reception.Agent.Charge | src/reception.rs:286-294 | the sender's balance is rewritten to the old balance less the cost, through the accountant, and no message changes |
| Reception.Agent.Ask | src/reception.rs:277-283 | the result is the assistant's `Answer` over the active conversation before the call; a failure stores no message, a reply records the exchange in the store, and the guest table is untouched |
| Reception.Agent.AdminInstruction | src/reception.rs:363-423 | an administrator's instruction answers what its parsed command calls for and writes at most the one guest record that command names |
| Reception.Agent.TopUpGuest | src/reception.rs:379-397 | an amount that does not parse or an unknown guest is answered with an error (for an unknown guest, the `ErrorText` of NotFound) and nothing changes; otherwise the balance grows by the amount and the new balance is reported |
| Reception.Agent.SetGuestAdmin | src/reception.rs:398-421 | a flag that does not parse or an unknown guest is answered with an error and nothing changes; otherwise the flag is set and the change is reported |
| Reception.Agent.UserInstruction | src/reception.rs:424-439 | without an assistant the answer is an internal error; "#查余额" reports the balance to three places, "#新会话" opens an empty conversation, "#查消耗" answers the audit text of `Assistant.Audit`'s report on the conversation before the call (a panic on an empty one) and changes no conversation, and anything else is unsupported; none of them touches a balance |
| Reception.Agent.HandleInstruction | src/reception.rs:356-440 | an administrator's "$" instruction is answered with `AdminOutcome`'s reply for its parsed command (`ParseAdminCommand`) and writes exactly the guest record that outcome names, or nothing. Everything else is a user command: it is answered as `UserInstruction` promises and leaves the guests unchanged. "#新会话" leaves a known guest an empty active conversation, and the other commands keep the conversations. No instruction touches a message |
| Reception.Agent.HandleUserRequest | src/reception.rs:173-306 | a message that cannot be authenticated or read is ignored with nothing changed. Otherwise a new sender is registered. An instruction is answered, whatever the balance, with `HandleInstruction`'s reply over the conversation as it was before admission, and the store then holds the admitted guest table changed as `HandleInstruction` promises. A negative balance is refused. A chat message is answered with the assistant's `Answer` over that conversation, and a reply charges its cost and is recorded in the store |
| Reception.ChargedGuest | src/reception.rs:286-294 | charging the sender rewrites only the sender's balance, to the old balance less the cost |
| Reception.LastGuestFound | src/reception.rs:237-246 | a guest just registered under a new name is the one found under that name |
| Reception.SetGuestCredit | src/reception.rs:286-288 | a guest record written and read back has the written balance |
| Reception.ChatOutcome | src/reception.rs:277-294 | an assistant's failure gives Ignored, a panic stays a panic, and a reply is sent with its content and cost |
| Reception.ServedChat | src/reception.rs:222-294 | after admission and the chat, the guest table is as the request's outcome describes: the new sender is appended, a refusal carries the negative balance, a reply lowers the balance by its cost, and an ignored message leaves it as it was |
| Reception.SameConversationAfterAdmit | src/reception.rs:237-246 | registering a new sender does not change the conversation any stored guest, or the new one, has with an assistant |
| Reception.NewAgent | src/reception.rs:76-131 | a missing admin variable fails naming it; otherwise the store is opened, and construction fails exactly when some variable read is unset, naming the first; on success every application has its crypto agent and messenger, an assistant per matching provider sharing the store, and the accountant |
| Reception.BuildApplications | src/reception.rs:85-117 | the assistant loop fails exactly when one of the variables it reads is unset, naming the first unset one; otherwise it builds the three maps |
| Reception.AddApplication | src/reception.rs:90-117 | one application is added, or the first unset variable among its reads is reported |
| Reception.ReadAssistant | src/reception.rs:92-101 | the token, key, corporation id and secret are read in that order; the first unset one is reported |
| Reception.AddProviders | src/reception.rs:103-116 | an assistant is built for every provider with the configured id, the last one kept, or the first unset provider variable is reported |
| Reception.ResolveProvider | src/reception.rs:105-110 | a matching provider's endpoint and key are read from the environment, or the first unset one is reported |
| ReceptionCore.CostAppend | src/reception/core.rs:45-47 | `Conversation::cost` (`Cost`) of a concatenation of messages is the sum of the parts' costs |
| ReceptionCore.TokensAppend | src/reception/core.rs:50-52 | `Conversation::tokens` (`Tokens`) of a concatenation is the sum of the parts' tokens, so appending a message raises the total by exactly its tokens; the sum is over unbounded naturals |
| ReceptionCore.TokensCoverEach | src/reception/core.rs:50-52 | every message's tokens are counted in the conversation's total, summed over unbounded naturals |
| ReceptionCore.CostNonNegative | src/reception/core.rs:45-47 | a conversation of non-negative costs has a non-negative cost, and one of zero costs costs nothing |
| ReceptionGuest.SinceEpoch | src/reception/guest.rs:21 | a clock reading at or after the epoch gives its seconds; one before it gives the error carrying how far behind it is |
| ReceptionGuest.NewMessage | src/reception/guest.rs:96-125 | fails exactly on a clock before the epoch; otherwise the accessors return the given content, embedding, cost and role, stamped with the time |
| ReceptionGuest.Guest.constructor | src/reception/guest.rs:16-25 | the given name and credit, an empty history and active index 0 |
| ReceptionGuest.Guest.New | src/reception/guest.rs:16-25 | fails exactly on a clock before the epoch; otherwise a new guest with the given name and credit, an empty history and active index 0 |
| ReceptionGuest.Guest.GetConversation | src/reception/guest.rs:35-37 | the conversation is exactly the history after the active index, and its `Len` counts those messages |
| ReceptionGuest.Guest.CloseConversation | src/reception/guest.rs:39-41 | the next `get_conversation` is empty, while the history and the credit are kept |
| ReceptionGuest.Guest.AppendMessage | src/reception/guest.rs:44-47 | the message goes at the end of the history and of the active conversation, earlier history is unchanged, the conversation's `Cost` grows by its cost, and the credit drops by exactly its cost |
| ReceptionGuest.Guest.SpentOnActive | src/reception/guest.rs:44-74 | the credit is the opening credit less the cost of the closed messages and less the cost of the active conversation |
| ReceptionDbAgent.RoleToType | src/reception/database/agent.rs:24-36 | every message role is stored under one of the type ids 1 to 4 |
| ReceptionDbAgent.RoleFromId | src/reception/database/agent.rs:45-53 | a type id outside 1 to 3 is read back as a supplementary message, and only such an id |
| ReceptionDbAgent.RoleIdRoundTrip | src/reception/database/agent.rs:24-53 | reading back the id a role is stored under gives that role again |
| ReceptionDbAgent.RoleTypeInjective | src/reception/database/agent.rs:24-36 | distinct roles get distinct type ids and distinct type names |
| ReceptionDbAgent.ContentTypeToRow | src/reception/database/agent.rs:67-80 | every content type gets an id from 1 to 5, and id 1 means text and nothing else |
| ReceptionDbAgent.ContentTypeRowInjective | src/reception/database/agent.rs:67-80 | distinct content types get distinct ids and distinct names |
| ReceptionDbAgent.Numbered | src/reception/database/agent.rs:155-184 | seeded name rows are numbered from 1 in the order given, as an autoincrement table numbers them |
| ReceptionDbAgent.SeededTablesMatchConversions | src/reception/database/agent.rs:155-184 | the seeded message-type and content-type tables hold, at each conversion's id, exactly the row that conversion produces |
| ReceptionDbAgent.AssistantOf | src/reception/database/agent.rs:14-21 | the core assistant keeps the row's name, and its agent id is the stored agent id cast with `as usize` |
| ReceptionDbAgent.MessageOf | src/reception/database/agent.rs:89-98 | a stored message becomes a core message with the same content and cost, the role its type id reads as, and the stored token count cast with `as usize` |
| ReceptionDbAgent.StoredMessageRoundTrip | src/reception/database/agent.rs:89-98 | a message whose token count fits in 31 bits comes back unchanged after being written as the row `StoredOf` builds and read back |
| ReceptionDbAgent.ActiveConversationOf | src/reception/database/agent.rs:428-434 | a found conversation is an active one of that guest; none found means the guest has no active conversation |
| ReceptionDbAgent.DeactivateAll | src/reception/database/agent.rs:384-390 | every active conversation of the guest becomes inactive and stamped, whichever assistant it belongs to, and no other row changes |
| ReceptionDbAgent.DeactivateAllEffect | src/reception/database/agent.rs:384-390 | deactivating keeps at most one active conversation per guest and leaves the guest with none |
| ReceptionDbAgent.MessagesOf | src/reception/database/agent.rs:437-442 | the messages of a conversation are the table's messages of that conversation, each as often as in the table, ordered by creation time; their token counts stay within 32 bits when the table's do |
| ReceptionDbAgent.ToCore | src/reception/database/agent.rs:443 | each stored message is converted in place, one for one |
| ReceptionDbAgent.FilterTokensFit | src/reception/database/agent.rs:437-442 | selecting and sorting a conversation's messages keeps every token count within 32 bits |
| ReceptionDbAgent.ConversationOf | src/reception/database/agent.rs:413-446 | reading a conversation fails with "record not found" exactly when the guest is missing or has no active conversation; otherwise it holds that conversation's messages in creation order, each read back as a core message |
| ReceptionDbAgent.ActiveIdOf | src/reception/database/agent.rs:455-471 | there is an id exactly when the guest exists and has an active conversation, and it is that conversation's id |
| ReceptionDbAgent.MessagesOfAppend | src/reception/database/agent.rs:437-490 | a message stamped no earlier than the rest lands at the end of its conversation's ordered messages |
| ReceptionDbAgent.AppendExtendsConversation | src/reception/database/agent.rs:413-490 | after a message is appended to the active conversation, reading the conversation gives the old content followed by that message |
| ReceptionDbAgent.MessagesValidLater | src/reception/database/agent.rs:473-474 | message timestamps stay no later than the clock as the clock advances |
| ReceptionDbAgent.MessagesValidAppend | src/reception/database/agent.rs:473-490 | appending a message stamped now to an existing conversation keeps the message table well formed |
| ReceptionDbAgent.GuestsValidAppend | src/reception/database/agent.rs:304-326 | adding a guest with a fresh id and a fresh name keeps guest names unique |
| ReceptionDbAgent.ConversationsValidAppend | src/reception/database/agent.rs:392-408 | adding an active conversation for a guest with none keeps at most one active conversation per guest |
| ReceptionDbAgent.ActiveIdBelow | src/reception/database/agent.rs:464-471 | the active conversation's id is one the table has already handed out |
| ReceptionDbAgent.Agent.Empty | src/reception/database/agent.rs:207-217 | a freshly migrated database has empty tables and is not yet initialized |
| ReceptionDbAgent.Agent.Tick | src/reception/database/agent.rs:117 | each timestamp is later than the one before |
| ReceptionDbAgent.Agent.Open | src/reception/database/agent.rs:203-241 | an initialized database is left as it is; otherwise a missing APP_ADMIN panics, an admin name already taken fails with a unique violation and changes nothing, and success seeds the admin, the provider, the assistant and the two type tables |
| ReceptionDbAgent.Agent.DefaultInit | src/reception/database/agent.rs:108-199 | seeding succeeds exactly when the admin row can be inserted, and then adds the admin guest with no credit, the default provider, the assistant 小白 with agent id 1000002, the four message types and the five content types |
| ReceptionDbAgent.Agent.InsertAdmin | src/reception/database/agent.rs:111-127 | the admin guest is inserted with id 1, no credit and the admin flag |
| ReceptionDbAgent.Agent.SeedTables | src/reception/database/agent.rs:129-199 | the provider, assistant, message-type and content-type tables gain exactly the seeded rows, and the database is marked initialized |
| ReceptionDbAgent.Agent.GetProvider | src/reception/database/agent.rs:244-251 | a provider is found exactly when its id is in the table, and it is the row with that id; otherwise "record not found" |
| ReceptionDbAgent.Agent.AssistantIdByAgentId | src/reception/database/agent.rs:254-264 | the id of the first assistant with that agent id, or "record not found" exactly when there is none |
| ReceptionDbAgent.Agent.GetAssistantByAgentId | src/reception/database/agent.rs:290-301 | the first assistant with that agent id, converted to the core assistant, or "record not found" exactly when there is none |
| ReceptionDbAgent.Agent.GetMsgTypes | src/reception/database/agent.rs:268-275 | the whole message-type table |
| ReceptionDbAgent.Agent.GetContentTypes | src/reception/database/agent.rs:278-285 | the whole content-type table |
| ReceptionDbAgent.Agent.CreateUser | src/reception/database/agent.rs:304-326 | registration succeeds exactly for a new name, appends the guest, and the guest then reads back as given; a taken name fails with a unique violation and changes nothing |
| ReceptionDbAgent.Agent.GetUser | src/reception/database/agent.rs:329-344 | the guest with that name, or "record not found" exactly when no guest has it |
| ReceptionDbAgent.Agent.UpdateUser | src/reception/database/agent.rs:347-361 | the named guest's credit and admin flag are overwritten and stamped; other guests and tables are unchanged |
| ReceptionDbAgent.Agent.CreateConversation | src/reception/database/agent.rs:365-410 | an unknown guest fails with nothing changed; otherwise the guest's active conversations are closed first, a missing assistant then fails with that closing kept, and success adds a new active conversation that reads back empty |
| ReceptionDbAgent.Agent.DeactivateGuest | src/reception/database/agent.rs:384-390 | all the guest's conversations become inactive and the guest has no active conversation left |
| ReceptionDbAgent.Agent.InsertConversation | src/reception/database/agent.rs:395-408 | the new conversation is active, takes the next id and reads back empty |
| ReceptionDbAgent.Agent.GetConversation | src/reception/database/agent.rs:413-446 | fails exactly when the guest has no active conversation, otherwise gives its messages in creation order |
| ReceptionDbAgent.Agent.AppendMessage | src/reception/database/agent.rs:449-492 | fails with "record not found" and changes nothing exactly when the guest has no active conversation; otherwise the message is stored in that conversation, the conversation then reads as before plus the message, and the message reads back unchanged when its token count fits in 31 bits |
| ReceptionDbAgent.Agent.InsertMessage | src/reception/database/agent.rs:473-490 | the message is appended with the next id, the current time and text content type |
| ReceptionDbAgent.FirstIndex | src/reception/database/agent.rs:258-263 | the position of the first row with that agent id, or "record not found" exactly when there is none |
| ReceptionDatabase.ById | src/reception/database.rs:238-255 | a lookup by primary key fails with "record not found" exactly when no row has that id, and otherwise returns a row of the table with that id |
| ReceptionDatabase.ByName | src/reception/database.rs:290-297 | a lookup by name fails with "record not found" exactly when no row has that name, and otherwise returns a row of the table with that name |
| ReceptionDatabase.ByIdPositional | src/reception/database.rs:238-245 | in a table numbered from 1 a lookup by id succeeds exactly for ids 1 to the table size, and returns the row at that position |
| ReceptionDatabase.NameThenId | src/reception/database.rs:280-297 | looking a type up by name and then by the id found gives back the same row |
| ReceptionDatabase.SeededLookups | src/reception/database.rs:65-93 | each seeded name is found by name and by its position number, as the same row |
| ReceptionDatabase.Without | src/reception/database.rs:214-228 | deleting by id keeps every row with another id and only rows of the table |
| ReceptionDatabase.WithoutPairwise | src/reception/database.rs:388-395 | deleting rows keeps any property every pair of rows had |
| ReceptionDatabase.WithoutSorted | src/reception/database.rs:442-449 | deleting rows keeps the remaining rows in creation order |
| ReceptionDatabase.DeleteCount | src/reception/database.rs:388-395 | the number of rows deleted is 1 when the id exists and 0 otherwise, since ids are unique |
| ReceptionDatabase.GuestsValidAppend | src/reception/database.rs:151-177 | inserting a guest with a fresh id and a fresh name keeps guest names and ids unique |
| ReceptionDatabase.Replace | src/reception/database.rs:194-211 | an update by id rewrites exactly the row with that id and no other |
| ReceptionDatabase.ReplaceGuest | src/reception/database.rs:194-211 | updating a guest keeps names unique and the guest is then found under its name as updated |
| ReceptionDatabase.RemoveGuestKeeps | src/reception/database.rs:214-228 | removing a found guest deletes exactly one row, keeps the table well formed and leaves no guest of that name |
| ReceptionDatabase.ConversationsValidAppend | src/reception/database.rs:346-361 | inserting an active conversation for a guest with none keeps at most one active conversation per guest |
| ReceptionDatabase.DeactivateKeeps | src/reception/database.rs:337-344 | deactivating a guest's conversations keeps the table well formed and leaves that guest with no active conversation |
| ReceptionDatabase.RemoveConversationKeeps | src/reception/database.rs:388-395 | deleting a conversation keeps the table well formed, and the guest still has an active conversation exactly when it had one with another id |
| ReceptionDatabase.MessagesValidAppend | src/reception/database.rs:398-425 | appending a message with the next id, stamped now, keeps message ids unique and the table in creation order |
| ReceptionDatabase.MessagesValidRemove | src/reception/database.rs:442-449 | deleting a message keeps the message table well formed |
| ReceptionDatabase.MessagesOf | src/reception/database.rs:428-438 | a conversation's messages are exactly the table's messages of that conversation, each as often as in the table, in creation order |
| ReceptionDatabase.SelectMembers | src/reception/database.rs:432-436 | selecting and then sorting keeps exactly the selected rows |
| ReceptionDatabase.MessagesOfAppend | src/reception/database.rs:398-438 | a message stamped no earlier than the rest lands at the end of its conversation's messages |
| ReceptionDatabase.DBAgent.Empty | src/reception/database.rs:111-122 | a freshly migrated database has empty tables and is not yet initialized |
| ReceptionDatabase.DBAgent.Tick | src/reception/database.rs:164 | each timestamp is later than the one before |
| ReceptionDatabase.DBAgent.Open | src/reception/database.rs:111-148 | an initialized database is left as it is; otherwise a missing APP_ADMIN panics, an admin name already taken fails with a unique violation, and success seeds the admin and the lookup tables |
| ReceptionDatabase.DBAgent.DefaultInit | src/reception/database.rs:20-103 | seeding succeeds exactly when the admin row can be inserted, adds the admin guest with no credit and marks the database initialized; on failure nothing is seeded |
| ReceptionDatabase.DBAgent.InsertAdmin | src/reception/database.rs:23-40 | the admin guest is inserted with id 1, no credit and the admin flag |
| ReceptionDatabase.DBAgent.SeedTables | src/reception/database.rs:42-101 | the provider, assistant, message-type and content-type tables are seeded and the database is marked initialized |
| ReceptionDatabase.DBAgent.Register | src/reception/database.rs:151-177 | registering always succeeds and the guest is then found by name; an existing guest is returned unchanged, a new one is inserted with the next id, no credit and no admin flag |
| ReceptionDatabase.DBAgent.GetUser | src/reception/database.rs:180-191 | no guest exactly when no row has that name, otherwise a stored guest with that name |
| ReceptionDatabase.DBAgent.UpdateUser | src/reception/database.rs:194-211 | fails with "record not found" and changes nothing exactly when the guest's id is gone; otherwise the credit is increased by the amount, the admin flag set, the row restamped, and the guest is then found as updated |
| ReceptionDatabase.DBAgent.RemoveUser | src/reception/database.rs:214-228 | an unknown name fails with NotFound and changes nothing; otherwise exactly one guest row is deleted and the name is no longer found |
| ReceptionDatabase.DBAgent.GetProviders | src/reception/database.rs:231-235 | the seeded provider list, empty before seeding |
| ReceptionDatabase.DBAgent.GetProvider | src/reception/database.rs:238-245 | only id 1 of a seeded store is found, and it is the seeded provider |
| ReceptionDatabase.DBAgent.GetAssistant | src/reception/database.rs:248-255 | only id 1 of a seeded store is found, and it is the seeded assistant |
| ReceptionDatabase.DBAgent.GetAssistantByAgentId | src/reception/database.rs:258-268 | only agent id 1000002 of a seeded store is found, and it is the seeded assistant |
| ReceptionDatabase.DBAgent.GetMsgTypes | src/reception/database.rs:271-277 | the three message types system, user and assistant numbered from 1, empty before seeding |
| ReceptionDatabase.DBAgent.GetMsgType | src/reception/database.rs:280-287 | a message type is found exactly for the seeded ids, with the name seeded at that position |
| ReceptionDatabase.DBAgent.GetMsgTypeByName | src/reception/database.rs:290-297 | a message type is found exactly for the seeded names, with the id of that name's position |
| ReceptionDatabase.DBAgent.GetContentTypes | src/reception/database.rs:300-306 | the eight content types text to textcard numbered from 1, empty before seeding |
| ReceptionDatabase.DBAgent.GetContentType | src/reception/database.rs:309-316 | a content type is found exactly for the seeded ids, with the name seeded at that position |
| ReceptionDatabase.DBAgent.GetContentTypeByName | src/reception/database.rs:319-326 | a content type is found exactly for the seeded names, with the id of that name's position |
| ReceptionDatabase.DBAgent.TypeLookupsAgree | src/reception/database.rs:280-326 | looking a type up by name and then by the id found gives back the same row |
| ReceptionDatabase.DBAgent.CreateConversation | src/reception/database.rs:329-361 | the guest's active conversations are closed and a new active one with the assistant is inserted with the next id at the same time stamp; it is then the guest's active conversation |
| ReceptionDatabase.DBAgent.GetConversation | src/reception/database.rs:364-371 | fails with "record not found" exactly when no conversation has that id, otherwise returns that conversation |
| ReceptionDatabase.DBAgent.GetActiveConversation | src/reception/database.rs:374-383 | fails with "record not found" exactly when the guest has no active conversation, otherwise returns it |
| ReceptionDatabase.DBAgent.RemoveConversation | src/reception/database.rs:388-395 | reports 1 when the conversation existed and 0 otherwise, and it is gone afterwards |
| ReceptionDatabase.DBAgent.CreateMessage | src/reception/database.rs:398-425 | the message is stored with the next id, stamped now, with the given fields, and it becomes the last message of its conversation |
| ReceptionDatabase.DBAgent.InsertMessage | src/reception/database.rs:419-424 | the row is appended and the id counter advances |
| ReceptionDatabase.DBAgent.GetMessagesByConversation | src/reception/database.rs:428-438 | exactly the conversation's messages, each as often as in the table, in creation order |
| ReceptionDatabase.DBAgent.RemoveMessage | src/reception/database.rs:442-449 | reports 1 when the message existed and 0 otherwise, and deletes only that message |
| ReceptionDatabase.RemovingActiveLeavesNone | src/reception/database.rs:386-395 | deleting a guest's active conversation leaves the guest with no active conversation |
| ReceptionOpenAi.ToMessageRole | src/reception/providers/openai.rs:102-111 | exactly Tool and Function become Supplementary; System, User and Assistant keep their names |
| ReceptionOpenAi.ToChatRole | src/reception/providers/openai.rs:113-122 | exactly Supplementary becomes Tool, and nothing becomes Function |
| ReceptionOpenAi.MessageRoleRoundTrip | src/reception/providers/openai.rs:102-122 | MessageRole → ChatRole → MessageRole is the identity |
| ReceptionOpenAi.ChatRoleRoundTrip | src/reception/providers/openai.rs:102-122 | ChatRole → MessageRole → ChatRole is the identity except that Function comes back as Tool |
| ReceptionOpenAi.FromCore | src/reception/providers/openai.rs:75-85 | the chat message keeps the content, and its role converts back to the core role |
| ReceptionOpenAi.ChargeableRoundTrip | src/reception/providers/openai.rs:75-144 | a chargeable answer turned into a chat message by `FromChargeable` is its first choice's message, read through `Content` and `Role` (Function relabelled as Tool); an answer without choices becomes an empty Tool message |
| ReceptionOpenAi.Cost | src/reception/providers/openai.rs:146-150 | a response with no tokens costs nothing, and non-negative prices give a non-negative cost |
| ReceptionOpenAi.CostAdditive | src/reception/providers/openai.rs:146-150 | at one price list, the cost of two answers' tokens together is the sum of their costs |
| ReceptionOpenAi.Converted | src/reception/providers/openai.rs:196-198 | one converted chat message per input message, in order |
| ReceptionOpenAi.ChatConversationShape | src/reception/providers/openai.rs:184-201 | `ChatConversationOf` always opens with one System message carrying the first input's content (`SystemPrompt`), whatever its role, or "You are a helpful assistant." when the input is empty. It holds max(1, n) messages, and messages 2..n keep their roles and contents in order |
| ReceptionOpenAi.FromConversation | src/reception/providers/openai.rs:184-201 | the loop that pushes the system message and then the remaining messages builds exactly the conversation described above |
| OpenAiLegacy.NewMessage | src/openai.rs:115-128 | `role()` and `content()` return exactly what `Message::new` was given |
| OpenAiLegacy.Conversation.constructor | src/openai.rs:76-84 | a new conversation holds exactly one System message, with the given text or "You are a helpful assistant." |
| OpenAiLegacy.Conversation.Append | src/openai.rs:87-89 | the message is added at the end and the earlier messages are unchanged, so the conversation still opens with its system message |
| OpenAiLegacy.Conversation.Clear | src/openai.rs:93-95 | no message is left |

## Left out

- The HTTP surface and the `tokio::spawn` in src/lib.rs and src/main.rs. They are asynchronous plumbing around the operations modelled here.
- src/reception/agent.rs is not part of this model. Its point is a guest list shared under a lock across awaits, which is concurrency and I/O. Its data logic is the in-memory guest of `ReceptionGuest`.
- The diesel schema and model declarations. They appear only as record shapes. src/wecom_api.rs appears only as the records in `WecomApi`, and its XML and JSON parsing are parameters that may fail.
- Network calls are not modelled. The provider's `reqwest` calls become an oracle parameter that returns a response or an error. `WecomAgent::send`, `reply` and `log_n_reply` are not modelled. A request's outcome records what would be sent back; delivery is not modelled, and neither is the `agent_id` parse in `reply`.
- AES-256-GCM, SHA-1, hex, base64 (RFC 4648 section 4), UTF-8, random bytes and nonces, and the `wecom_crypto` crate. They are parameters of the model. The round trip of the message envelope assumes only that opening a sealed block gives the block back.
- `Crypto.SignatureInputExample`: the test in src/crypto.rs:87-98 also fixes the expected digest "a8addbc99f8b3f51d2adbceb605d650b9a8940e2". SHA-1 is a parameter, so the model states only that the digest is taken over "0abc".
- Diesel and SQLite, the connection pool, migrations, connection failures and the text of database errors. A query fails in the model only where a row is missing or a unique constraint is violated. The tables are sequences.
- Deleting a guest or a conversation in `ReceptionDatabase` removes only that row. Rows that refer to it stay in place; foreign-key cascades are not modelled.
- Floating-point behaviour of `f64`: credit and cost are exact reals. Rounding and the `{}` and `{:.3}` renderings of numbers are a formatting parameter.
- Environment variables are a function from name to optional value. `tracing` logs are not modelled.
- The provider's `max_tokens` is only logged by `Assistant::chat`. It does not influence which messages are kept, so the model does not read it.
- ReceptionCore.Tokens: `Conversation::tokens` (src/reception/core.rs:50-52) folds over `usize`, which panics on overflow in a debug build and wraps modulo 2^64 in a release build. The model sums unbounded naturals. The overflow is reachable: a count of 2^31 or more is stored as a negative `i32` and reads back through `as usize` as a value near 2^64. Nothing in the source calls `tokens()`.
- ReceptionCore.TokensAppend: holds for the unbounded sum only. Under the `usize` fold, a concatenation that overflows panics or wraps instead of adding up.
- ReceptionCore.TokensCoverEach: holds for the unbounded sum only. A wrapped `usize` total can be smaller than one message's tokens.
- The `i32` arithmetic of `tokens_dropped` in the trim loop and of the token folds of `audit` is modelled over unbounded integers. The wrap-around on overflow is not modelled.
- `Reception.Agent.AdminInstruction`: `$$查用户$$` calls `accountant.get_guests()`, which src/accountant.rs does not define. The model reads the store's guest list through `get_users` instead.
- `Reception.Agent.HandleUserRequest`: a failure of `verify_guest`, `register` or `get_guest` that comes only from a database fault cannot happen in the model. The sender is registered only when absent, and the store does not fail otherwise.
- `handle_account_creation` in src/reception.rs only logs the result of the accountant's `handle_user_creation_event`. That call is `Accountant.Accountant.HandleUserCreationEvent`.
- The `AIConversation` and `AIMessage` traits of the reception generation are not modelled as traits. `ReceptionOpenAi.FromConversation` takes the reception's own `Conversation` value.
