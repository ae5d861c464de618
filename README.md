# Bitpanda Telegram bot — a Dafny model

The bot lets a Telegram user keep their Bitpanda API key on the server and
ask for their balances. Three parts of it do the work, and each is a module
in this model:

- **The credential store** (`Database`, database.dfy): a sqlite table
  `users(user_id, api_key)` holding each user's key encrypted with Fernet.
  It supports setup, upsert, lookup with decryption, and delete. The table
  is a class whose `rows` map is updated in place. The cipher is a pair of
  functions where decryption undoes encryption (`RoundTrips`). Before setup, every
  statement fails with sqlite's `OperationalError`.
- **The Bitpanda client** (`Bitpanda`, bitpanda.dfy): it is built from the
  stored key. It flattens the parsed `/asset-wallets` and `/fiatwallets`
  bodies into wallet records and renders the wallets with a positive balance
  as a summary. The loops are methods, each proved equal to a specification
  function, and the properties are lemmas about those functions.
- **The command handlers** (`Bot`, bot.dfy):
  - `/start` registers first-time users in `user_data.json`.
  - `/caps` upper-cases its arguments.
  - `/login` and `/logout` store and delete the key.
  - `/balance` combines or filters the two summaries.

Three supporting modules:

- `Outcomes`: `Option`, Python's exception kinds, and `Outcome`, a value or
  a raised exception, used with `:-`.
- `JsonTree`: a parsed JSON value and Python's `j[key]`, `key in j`,
  `j.items()` and `for x in j` on it, each with the exception Python raises
  for the wrong shape.
- `Text`: `split`, `join` and `upper`, and the substring test `in`.

Behaviour of the code worth knowing:

- Failures of the Bitpanda API are returned as message text.
- A non-200 answer from either endpoint gives the same text, which mentions
  fiat balances even for the asset request.
- A missing structure in a successful response raises Python's `KeyError`,
  `TypeError` or `AttributeError`, which `/balance` does not catch.
- A Fernet `InvalidToken` is not a `ValueError`, so the `/balance` handler
  lets it through instead of answering with the login hint.
- An asset list whose balances are all zero gives the header alone, not the
  "no assets" text.

## Model

| member | source | states |
|---|---|---|
| `Database.EncryptApiKey` | src/database.py:30-34 | the token is never empty and decrypts back to the key |
| `Database.DecryptApiKey` | src/database.py:36-42 | None exactly for a NULL or empty value; otherwise what the cipher decrypts, or the cipher's exception |
| `Database.DecryptInvertsEncrypt` | src/database.py:30-42 | decrypting an encrypted key gives the key back |
| `Database.Upserted` | src/database.py:52-55 | after the upsert the user's row holds the new token whether or not a row existed; other rows are unchanged, and no other key is added |
| `Database.Removed` | src/database.py:80 | the user's row is gone and every other row is kept |
| `Database.Lookup` | src/database.py:66-71 | None exactly when there is no row, a NULL value or an empty value; a returned key is the decryption of the stored token; a non-empty token the cipher rejects raises the cipher's exception; a non-empty token that decrypts gives its key |
| `Database.StoreThenFetch` | src/database.py:44-71 | a lookup after storing a key returns that key |
| `Database.StoreLastWins` | src/database.py:52-55 | storing twice equals storing the second key; the table keeps one row per user |
| `Database.UpsertSize` | src/database.py:52-55 | the upsert adds a row exactly when the user had none |
| `Database.OtherUsersUnaffected` | src/database.py:52-80 | storing or deleting for one user leaves every other user's lookup unchanged |
| `Database.FetchWithoutKey` | src/database.py:66-71 | a missing row, a NULL value or an empty value gives None |
| `Database.DeleteThenFetch` | src/database.py:73-82 | after a delete the lookup gives None; deleting again changes nothing |
| `Database.UsersDb.constructor` | src/database.py:12 | the database file as found: with or without the table, but never rows without a table |
| `Database.UsersDb.SetupDatabase` | src/database.py:14-28 | afterwards the table exists and its existing rows are kept, so running setup again changes nothing |
| `Database.UsersDb.StoreApiKey` | src/database.py:44-57 | the rows become the upsert of the encrypted key, or the call raises OperationalError without a table; afterwards the user fetches the key and every other user fetches what they did before |
| `Database.UsersDb.GetApiKey` | src/database.py:59-71 | the lookup of the current rows; a value returned is the decryption of the stored token; no row, NULL or empty gives None |
| `Database.UsersDb.DeleteApiKey` | src/database.py:73-82 | the user's row is removed, also when it is absent; the user then fetches None and other users are unaffected |
| `JsonTree.Get` | src/bitpanda.py:33-42 | `j[key]` succeeds exactly on a dict holding the key, giving its value; a dict without it raises KeyError; any value that is not a dict raises TypeError |
| `JsonTree.Contains` | src/bitpanda.py:34 | `key in j` checks dict keys, list elements or, on a string, whether the key is a substring of it; a number, a boolean or None raises TypeError, and TypeError is the only exception |
| `JsonTree.Items` | src/bitpanda.py:33 | `.items()` gives a dict's members in order; any other value raises AttributeError |
| `JsonTree.Iterate` | src/bitpanda.py:35 | `for x in j` visits a list's elements, a dict's keys or a string's one-character strings; a number, a boolean or None raises TypeError, and TypeError is the only exception |
| `Text.UpperChar` | src/bot.py:174 | a-z map to A-Z and every other character is kept |
| `Text.Upper` | src/bot.py:123 | same length, each character upper-cased |
| `Text.UpperIdempotent` | src/bot.py:174 | upper-casing twice is upper-casing once |
| `Text.Split` | src/bot.py:182 | at least one piece, and no piece contains a separator |
| `Text.SplitCount` | src/bot.py:182 | one more piece than there are separators |
| `Text.Join` | src/bot.py:182 | no parts give the empty text and one part gives itself |
| `Text.JoinSplit` | src/bot.py:182 | joining the pieces of a split gives back the text |
| `Text.SplitJoin` | src/bot.py:123 | splitting a join of separator-free parts gives back the parts |
| `Text.SplitAround` | src/bot.py:194 | the split of `a + sep + b` is the split of `a` followed by the split of `b` |
| `Text.SplitNoSeparator` | src/bot.py:182 | a text without the separator splits into itself alone |
| `Text.OccurrenceInSomePiece` | src/bot.py:181-182 | an occurrence of a text without the separator lies within one piece of the split |
| `Text.InMiddle` | src/bot.py:181 | a text occurs in any text that has it between two others |
| `Text.UpperJoin` | src/bot.py:123 | upper-casing a join equals joining the upper-cased parts |
| `Bitpanda.Format` | src/bitpanda.py:51 | a string field enters the f-string unchanged |
| `Bitpanda.Collect` | src/bitpanda.py:35-43 | a loop appending one record per element: it succeeds exactly when every element converts, one record per element in order; otherwise an element's exception |
| `Bitpanda.AssetRecord` | src/bitpanda.py:36-42 | a record is built exactly when every subscript succeeds and `float(balance)` succeeds; it takes its category from the loop, its id from the wallet, and its name, symbol and balance from the wallet's attributes; a non-dict wallet raises TypeError |
| `Bitpanda.FiatRecord` | src/bitpanda.py:66-71 | a record is built exactly when every subscript succeeds and `float(balance)` succeeds; it takes its name, fiat symbol and balance from the wallet's attributes; a non-dict wallet raises TypeError |
| `Bitpanda.CategoryWallets` | src/bitpanda.py:34-43 | a category without `attributes` or `wallets` contributes nothing; every record it contributes carries its category |
| `Bitpanda.ConcatAll` | src/bitpanda.py:32-43 | the outer loop succeeds exactly when every category's records can be built; otherwise a category's exception |
| `Bitpanda.FlattenCategories` | src/bitpanda.py:32-43 | the category walk succeeds exactly when every category's records can be built; an exception it raises is one of a category's |
| `Bitpanda.AssetWallets` | src/bitpanda.py:29-43 | a body that is not a dict raises TypeError and one without `data` raises KeyError; a success is the walk over the categories under `data.attributes`, which is a dict |
| `Bitpanda.FiatWallets` | src/bitpanda.py:62-71 | a body that is not a dict raises TypeError and one without `data` raises KeyError; a success has one record per item of `data` |
| `Bitpanda.CollectPrefixRaises` | src/bitpanda.py:35-43 | the first exception ends the wallet loop |
| `Bitpanda.ConcatPrefixRaises` | src/bitpanda.py:33-43 | the first exception ends the category loop |
| `Bitpanda.ConcatAppend` | src/bitpanda.py:32-43 | output order follows item order: two runs of items give their outputs one after the other |
| `Bitpanda.FlattenStep` | src/bitpanda.py:33-43 | each pass of the outer loop either extends the list by the category's records or ends the walk with its exception |
| `Bitpanda.FlattenAppend` | src/bitpanda.py:33-43 | the records are each category's records, in category order |
| `Bitpanda.SkipCategoryWithoutWallets` | src/bitpanda.py:34 | a category without a wallet list is skipped without error |
| `Bitpanda.CategoryWithWalletList` | src/bitpanda.py:34-35 | a category with a wallet list contributes the records of its wallets |
| `Bitpanda.RecordsPerWallet` | src/bitpanda.py:35-43 | one record per wallet, in order, tagged with the category, carrying the wallet's name and symbol |
| `Bitpanda.FiatRecordsPerItem` | src/bitpanda.py:64-71 | the fiat records map the `data` list one to one, in order |
| `Bitpanda.AssetWalletShape` | src/bitpanda.py:36-42 | a wallet of the documented shape gives the record with its category, id, name, symbol and converted balance |
| `Bitpanda.AssetWalletsOfCategories` | src/bitpanda.py:29-33 | the asset list is the walk over the categories found under `data.attributes` |
| `Bitpanda.FlattenFirstOfTwo` | src/bitpanda.py:33-43 | a second category that contributes nothing leaves the first category's records alone |
| `Bitpanda.TwoCategoriesOneWithoutWallets` | src/bitpanda.py:29-43 | for two categories where only the first has a wallet list, the asset list is exactly one record per wallet of the first, in order, each tagged with the first category |
| `Bitpanda.SummaryLine` | src/bitpanda.py:51 | a summary line starts with the bullet, ends with a line break, and contains the name, the symbol and the balance text |
| `Bitpanda.AssetLine` | src/bitpanda.py:51 | the asset line contains the wallet's name, its symbol and `{balance}`, and ends with a line break |
| `Bitpanda.FiatLine` | src/bitpanda.py:80 | the fiat line contains the wallet's name, its symbol and `{balance:.2f}`, and ends with a line break |
| `Bitpanda.Positive` | src/bitpanda.py:50 | keeps exactly the wallets with a positive balance, each taken from the input |
| `Bitpanda.PositiveAppend` | src/bitpanda.py:49-50 | the filter keeps wallet order: two runs of wallets give their kept wallets one after the other |
| `Bitpanda.LinesAppend` | src/bitpanda.py:49-51 | the summary lines follow wallet order |
| `Bitpanda.LinesOfPositive` | src/bitpanda.py:78-80 | only wallets with a positive balance add a line: the lines of all wallets are the lines of the positive ones |
| `Bitpanda.LinesWithoutPositive` | src/bitpanda.py:49-51 | no positive balance, no lines |
| `Bitpanda.NonOkStatusIgnoresBody` | src/bitpanda.py:26-60 | a non-200 status gives the fixed error text from both operations, whatever the body |
| `Bitpanda.AssetSummaryOfPositive` | src/bitpanda.py:45-53 | a successful response with asset wallets gives the header followed by the lines of the wallets with a positive balance |
| `Bitpanda.FiatSummaryOfPositive` | src/bitpanda.py:73-82 | a successful response with fiat wallets gives the header followed by the lines of the wallets with a positive balance |
| `Bitpanda.ZeroBalancesGiveHeaderOnly` | src/bitpanda.py:45-53 | non-empty asset wallets all at zero give the header alone, which is not the "no assets" text |
| `Bitpanda.FiatZeroBalancesGiveHeaderOnly` | src/bitpanda.py:73-82 | non-empty fiat wallets all at zero give the header alone, which is not the "no fiat" text |
| `Bitpanda.ClientKey` | src/bitpanda.py:15-18 | ValueError exactly when the stored key is None or empty (or the store itself raised ValueError); other exceptions pass through; otherwise the stored key |
| `Bitpanda.AssetBalances` | src/bitpanda.py:22-53 | a non-200 status gives the error text; otherwise a failure to read the wallets is raised, an empty list gives the "no assets" text, and a non-empty list gives a text starting with the portfolio header |
| `Bitpanda.FiatBalances` | src/bitpanda.py:55-82 | a non-200 status gives the error text; otherwise a failure to read the wallets is raised, an empty list gives the "no fiat" text, and a non-empty list gives a text starting with the fiat header |
| `Bitpanda.Summarize` | src/bitpanda.py:48-53 | the loop's message is the header followed by the lines of the positive wallets |
| `Bitpanda.CollectLoop` | src/bitpanda.py:35-43 | the record loop with its early exit computes `Collect` |
| `Bitpanda.WalletsOfCategory` | src/bitpanda.py:34-43 | one pass of the outer loop computes `CategoryWallets` |
| `Bitpanda.FlattenAssetWallets` | src/bitpanda.py:29-43 | the nested loops compute the flattened asset list |
| `Bitpanda.FlattenFiatWallets` | src/bitpanda.py:62-71 | the fiat loop computes the fiat list |
| `Bitpanda.BitpandaClient.constructor` | src/bitpanda.py:13-20 | the client keeps the user and the key and sends the key in `X-Api-Key` |
| `Bitpanda.BitpandaClient.Create` | src/bitpanda.py:13-20 | a client exists exactly when the stored key is non-empty, and then carries that key; otherwise the ValueError or the store's exception |
| `Bitpanda.BitpandaClient.GetAssetBalances` | src/bitpanda.py:22-53 | the asset text: error text, "no assets", or header plus positive lines |
| `Bitpanda.BitpandaClient.GetFiatBalances` | src/bitpanda.py:55-82 | the fiat text: error text, "no fiat", or header plus positive lines |
| `Bot.LinesContaining` | src/bot.py:182 | every kept line contains the asset and comes from the input; every line containing it is kept |
| `Bot.LinesContainingAppend` | src/bot.py:182 | the filter keeps line order |
| `Bot.FilterLines` | src/bot.py:182 | for an asset without line breaks that occurs in the message, some line is kept and the lines of the result are exactly the message's lines containing the asset; the empty asset keeps the message |
| `Bot.FilterLinesExact` | src/bot.py:182 | the joined kept lines split back into those lines, and there is at least one when the asset occurs in the message |
| `Bot.AssetReply` | src/bot.py:181-186 | when the asset occurs in the asset summary, the reply's lines are that summary's lines containing it; only when it does not, those of the fiat summary; in neither, the "no balance found" text |
| `Bot.FilterForEmptyKeepsMessage` | src/bot.py:182 | filtering for the empty text keeps the whole message |
| `Bot.BalanceText` | src/bot.py:173-194 | with an argument, the heading names the upper-cased asset and the asset reply follows; without, both summaries one after the other, whose lines follow one another |
| `Bot.BalanceReply` | src/bot.py:159-200 | ValueError from the client gives the login hint; other exceptions from the key lookup pass through; then an asset-summary exception, else a fiat-summary exception, else the balance text of both summaries |
| `Bot.AssetQueryUpperCased` | src/bot.py:173-174 | the case of the argument does not matter: the reply equals the reply for the upper-cased argument |
| `Bot.Balance` | src/bot.py:159-200 | the handler's reply is `BalanceReply` of the stored key lookup, the arguments and the two responses |
| `Bot.Caps` | src/bot.py:122-124 | the reply has no lower-case letters; no arguments give an empty reply |
| `Bot.CapsWords` | src/bot.py:123 | the reply splits at spaces into the upper-cased arguments |
| `Bot.Login` | src/bot.py:202-221 | with an argument, the first one is stored and fetched back afterwards; without one, the store is untouched and the usage text is the reply |
| `Bot.Logout` | src/bot.py:223-232 | the user's row is deleted and the fixed reply is sent |
| `Bot.FirstSeen` | src/bot.py:70 | a new user's entry is a dict holding exactly `first_seen`, set to the date |
| `Bot.Registered` | src/bot.py:65-71 | an unseen user gets a `first_seen` entry; known users and all other entries are unchanged |
| `Bot.RegisterKeepsFirstDate` | src/bot.py:68-71 | registering again keeps the first date |
| `Bot.UserFile.constructor` | src/bot.py:24-28 | the users file as found, possibly absent |
| `Bot.UserFile.Loaded` | src/bot.py:24-28 | an absent file loads as the empty dict; otherwise its contents |
| `Bot.UserFile.Start` | src/bot.py:62-84 | the file is written only for a new user, and then holds that user's registration; a new user gets the welcome text, a returning user "Welcome back!" before it |

## Left out

- Telegram transport (sending messages, parse modes, chat ids): each handler returns its reply text instead.
- HTTP requests: each client operation receives the status and parsed body of the response; `response.json()` failing on a non-JSON body is not modelled.
- Connections and commits to sqlite: the table is the `UsersDb` object; concurrent access from several processes is not modelled.
- Reading and writing `user_data.json`: the file is the `UserFile` object; a file that holds something other than a JSON object is not modelled.
- Fernet internals: the cipher is abstract, and the requirement `RoundTrips` assumes only two things of it: decrypting a token gives the key back, and a token is never empty (a Fernet token always carries a version byte, a timestamp, an IV and an HMAC). Randomised tokens and tamper detection are not claimed.
- The missing `ENCRYPTION_KEY` crash at import: the model starts with a cipher.
- `float()`, `str()` and float formatting (`{x}`, `{x:.2f}`) are parameters (`Builtins`), not defined.
- `str.upper()` maps only the ASCII letters; Unicode case mapping is not modelled.
- `str(user_id)` conversions: user ids are strings throughout.
- Duplicate keys in a JSON object: lookup takes the first, while Python's parser keeps the last; `Items` and `Iterate` visit a repeated key once per occurrence, where the parsed dict holds it once, so `FlattenCategories` walks a repeated category twice.
- The `/help`, echo, unknown-command and inline-share handlers and the handler registration: they send fixed texts and hold no logic.
- The welcome text of `/start` is a parameter, not its literal value.
- Bot.UserFile.Start: the date is a parameter, because the clock and the message timestamp are outside the model.
- Bitpanda.Lines carries no contract of its own: its meaning is stated by `LinesAppend`, `LinesOfPositive`, `LinesWithoutPositive` and the `Summarize` loop, because a quantified postcondition on it makes every proof that uses it too costly.
