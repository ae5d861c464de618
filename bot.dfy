/** The command handlers of the Telegram bot, without the transport: each
    handler receives the command's arguments and what it needs from the
    outside world, and returns the text it sends back or the exception it
    raises. */
module Bot {
  import opened Outcomes
  import opened Text
  import opened JsonTree
  import Database
  import Bitpanda

  const LoginFirst: string := "⚠️ You need to log in first using `/login YOUR_API_KEY`"
  const LoginDone: string :=
    "✅ *Login Successful!* \n\nYour API key has been securely stored. \n🚨 *For security reasons, please delete this chat message now!*"
  const LoginUsage: string := "⚠️ *You need to supply your API key to log in.*\nUsage: `/login YOUR_BITPANDA_API_KEY`"
  const LogoutDone: string := "✅ You have been logged out. Your API key has been removed securely."

  // ---------------------------------------------------------------------
  // /balance
  // ---------------------------------------------------------------------

  /** `[line for line in lines if asset in line]`. */
  function LinesContaining(asset: string, lines: seq<string>): (r: seq<string>)
    ensures |r| <= |lines|
    ensures forall k :: 0 <= k < |r| ==> IsSubstring(asset, r[k]) && r[k] in lines
    ensures forall k :: 0 <= k < |lines| && IsSubstring(asset, lines[k]) ==> lines[k] in r
    decreases |lines|
  {
    if lines == [] then []
    else
      var init := LinesContaining(asset, lines[..|lines| - 1]);
      var last := lines[|lines| - 1];
      if IsSubstring(asset, last) then init + [last] else init
  }

  /** `"\n".join([line for line in message.split("\n") if asset in line])`.
      For a text without line breaks that occurs in the message, the result
      is non-empty and its lines are exactly the message's lines that contain
      the text, in order; filtering for the empty text keeps the message. */
  function FilterLines(asset: string, message: string): (r: string)
    ensures '\n' !in asset && IsSubstring(asset, message) ==>
              && LinesContaining(asset, Split('\n', message)) != []
              && Split('\n', r) == LinesContaining(asset, Split('\n', message))
    ensures asset == [] ==> r == message
  {
    var r := Join('\n', LinesContaining(asset, Split('\n', message)));
    if asset == [] then
      assert OccursAt(asset, message, 0);
      FilterLinesExact(asset, message);
      FilterForEmptyKeepsMessage(message);
      r
    else if '\n' !in asset && IsSubstring(asset, message) then
      FilterLinesExact(asset, message);
      r
    else
      r
  }

  /** The text for `/balance ASSET`, given the asset and fiat messages: the
      matching lines of the asset message if the asset occurs in it, else those
      of the fiat message if it occurs there, else a fixed text. */
  function AssetReply(asset: string, assetMessage: string, fiatMessage: string): (r: string)
    ensures '\n' !in asset && IsSubstring(asset, assetMessage) ==>
              Split('\n', r) == LinesContaining(asset, Split('\n', assetMessage))
    ensures '\n' !in asset && !IsSubstring(asset, assetMessage) && IsSubstring(asset, fiatMessage) ==>
              Split('\n', r) == LinesContaining(asset, Split('\n', fiatMessage))
    ensures !IsSubstring(asset, assetMessage) && !IsSubstring(asset, fiatMessage) ==>
              r == "❌ No balance found for " + asset + "."
  {
    if IsSubstring(asset, assetMessage) then FilterLines(asset, assetMessage)
    else if IsSubstring(asset, fiatMessage) then FilterLines(asset, fiatMessage)
    else "❌ No balance found for " + asset + "."
  }

  /** The message /balance sends once both summaries are in hand. With an
      argument, its upper-case form is the asset looked for; without, the two
      summaries are sent one after the other, so the lines of the message are
      the lines of the first followed by the lines of the second. */
  function BalanceText(args: seq<string>, assetMessage: string, fiatMessage: string): (r: string)
    ensures |args| > 0 ==>
              r == "🔍 *" + Upper(args[0]) + " Balance:*\n" + AssetReply(Upper(args[0]), assetMessage, fiatMessage)
    ensures |args| == 0 ==>
              && r == assetMessage + "\n" + fiatMessage
              && Split('\n', r) == Split('\n', assetMessage) + Split('\n', fiatMessage)
  {
    if |args| > 0 then
      var asset := Upper(args[0]);
      "🔍 *" + asset + " Balance:*\n" + AssetReply(asset, assetMessage, fiatMessage)
    else
      SplitAround('\n', assetMessage, fiatMessage);
      assetMessage + "\n" + fiatMessage
  }

  /** What /balance does for a user whose stored key lookup gave `fetched`:
      a ValueError while building the client gives the login hint; any other
      exception passes through; otherwise the asset summary is fetched, then
      the fiat summary, and the first exception of the two is the result. */
  function BalanceReply(fetched: Outcome<Option<string>>, args: seq<string>, b: Bitpanda.Builtins,
                        assetResponse: Bitpanda.Response, fiatResponse: Bitpanda.Response): (r: Outcome<string>)
    ensures Bitpanda.ClientKey(fetched) == Raised(ValueError) ==> r == Value(LoginFirst)
    ensures fetched.Raised? && fetched.error != ValueError ==> r == Raised(fetched.error)
    ensures Bitpanda.ClientKey(fetched).Value? ==>
              && (Bitpanda.AssetBalances(b, assetResponse).Raised? ==>
                    r == Raised(Bitpanda.AssetBalances(b, assetResponse).error))
              && (Bitpanda.AssetBalances(b, assetResponse).Value? && Bitpanda.FiatBalances(b, fiatResponse).Raised? ==>
                    r == Raised(Bitpanda.FiatBalances(b, fiatResponse).error))
              && (Bitpanda.AssetBalances(b, assetResponse).Value? && Bitpanda.FiatBalances(b, fiatResponse).Value? ==>
                    r == Value(BalanceText(args, Bitpanda.AssetBalances(b, assetResponse).value,
                                           Bitpanda.FiatBalances(b, fiatResponse).value)))
  {
    var key := Bitpanda.ClientKey(fetched);
    if key == Raised(ValueError) then Value(LoginFirst)
    else if key.Raised? then Raised(key.error)
    else
      var assetMessage :- Bitpanda.AssetBalances(b, assetResponse);
      var fiatMessage :- Bitpanda.FiatBalances(b, fiatResponse);
      Value(BalanceText(args, assetMessage, fiatMessage))
  }

  /** The lines kept from two runs of lines are those kept from the first
      followed by those kept from the second: the filter keeps line order. */
  lemma {:induction false} LinesContainingAppend(asset: string, l1: seq<string>, l2: seq<string>)
    ensures LinesContaining(asset, l1 + l2) == LinesContaining(asset, l1) + LinesContaining(asset, l2)
    decreases |l2|
  {
    if l2 == [] {
      assert l1 + l2 == l1;
    } else {
      var n := |l2| - 1;
      assert (l1 + l2)[..|l1 + l2| - 1] == l1 + l2[..n];
      assert (l1 + l2)[|l1 + l2| - 1] == l2[n];
      LinesContainingAppend(asset, l1, l2[..n]);
    }
  }

  /** The proof of FilterLines's first property: a text without line breaks
      that occurs in the message lies in one of its lines, and the kept lines,
      none of which holds a line break, split back out of their join. */
  lemma FilterLinesExact(asset: string, message: string)
    requires '\n' !in asset && IsSubstring(asset, message)
    ensures LinesContaining(asset, Split('\n', message)) != []
    ensures Split('\n', Join('\n', LinesContaining(asset, Split('\n', message)))) ==
            LinesContaining(asset, Split('\n', message))
  {
    var lines := Split('\n', message);
    var i :| 0 <= i <= |message| - |asset| && OccursAt(asset, message, i);
    OccurrenceInSomePiece('\n', asset, message, i);
    var k :| 0 <= k < |lines| && IsSubstring(asset, lines[k]);
    var kept := LinesContaining(asset, lines);
    assert lines[k] in kept;
    forall j | 0 <= j < |kept| ensures '\n' !in kept[j] {
      assert kept[j] in lines;
    }
    SplitJoin('\n', kept);
  }

  /** The empty text occurs in every line, so filtering for it keeps the whole message. */
  lemma FilterForEmptyKeepsMessage(message: string)
    ensures Join('\n', LinesContaining([], Split('\n', message))) == message
  {
    var lines := Split('\n', message);
    forall k | 0 <= k < |lines| ensures IsSubstring([], lines[k]) {
      assert OccursAt([], lines[k], 0);
    }
    KeepAll([], lines);
    JoinSplit('\n', message);
  }

  /** A filter that every line passes keeps every line. */
  lemma {:induction false} KeepAll(asset: string, lines: seq<string>)
    requires forall k :: 0 <= k < |lines| ==> IsSubstring(asset, lines[k])
    ensures LinesContaining(asset, lines) == lines
    decreases |lines|
  {
    if lines != [] {
      KeepAll(asset, lines[..|lines| - 1]);
      assert lines[..|lines| - 1] + [lines[|lines| - 1]] == lines;
    }
  }

  /** The case of the argument does not matter: the reply is the one for the
      argument already upper-cased. */
  lemma AssetQueryUpperCased(args: seq<string>, assetMessage: string, fiatMessage: string)
    requires |args| > 0
    ensures BalanceText(args, assetMessage, fiatMessage) == BalanceText([Upper(args[0])], assetMessage, fiatMessage)
  {
    UpperIdempotent(args[0]);
  }

  /** The /balance handler. */
  method Balance(db: Database.UsersDb, userId: string, args: seq<string>, b: Bitpanda.Builtins,
                 assetResponse: Bitpanda.Response, fiatResponse: Bitpanda.Response)
    returns (r: Outcome<string>)
    requires db.Valid()
    ensures r == BalanceReply(db.ApiKeyOf(userId), args, b, assetResponse, fiatResponse)
  {
    var created := Bitpanda.BitpandaClient.Create(db, userId);
    if created.Raised? {
      if created.error == ValueError {
        return Value(LoginFirst);
      }
      return Raised(created.error);
    }
    var client := created.value;
    var assetMessage :- client.GetAssetBalances(b, assetResponse);
    var fiatMessage :- client.GetFiatBalances(b, fiatResponse);
    return Value(BalanceText(args, assetMessage, fiatMessage));
  }

  // ---------------------------------------------------------------------
  // /caps
  // ---------------------------------------------------------------------

  /** `' '.join(context.args).upper()`. */
  function Caps(args: seq<string>): (text: string)
    ensures forall i :: 0 <= i < |text| ==> !('a' <= text[i] <= 'z')
    ensures args == [] ==> text == []
  {
    Upper(Join(' ', args))
  }

  /** The reply of /caps splits at its spaces into the upper-cased arguments,
      one piece per argument (arguments are never empty and hold no spaces). */
  lemma CapsWords(args: seq<string>)
    requires |args| >= 1
    requires forall k :: 0 <= k < |args| ==> ' ' !in args[k]
    ensures Split(' ', Caps(args)) == seq(|args|, k requires 0 <= k < |args| => Upper(args[k]))
  {
    var ups := seq(|args|, k requires 0 <= k < |args| => Upper(args[k]));
    UpperJoin(' ', args);
    SplitJoin(' ', ups);
  }

  // ---------------------------------------------------------------------
  // /login and /logout
  // ---------------------------------------------------------------------

  /** The /login handler: store `args[0]` as the user's key when an argument
      is given; otherwise leave the store alone and answer with the usage hint. */
  method Login(db: Database.UsersDb, userId: string, args: seq<string>) returns (r: Outcome<string>)
    requires db.Valid()
    modifies db
    ensures db.Valid() && db.tableExists == old(db.tableExists)
    ensures |args| == 0 ==> r == Value(LoginUsage) && db.rows == old(db.rows)
    ensures |args| > 0 ==>
              && r == (if old(db.tableExists) then Value(LoginDone) else Raised(OperationalError))
              && db.rows == (if old(db.tableExists)
                             then Database.Upserted(old(db.rows), userId, Database.EncryptApiKey(db.cipher, args[0]))
                             else old(db.rows))
    ensures |args| > 0 && r.Value? ==> db.ApiKeyOf(userId) == Value(Some(args[0]))
  {
    if |args| > 0 {
      var apiKey := args[0];
      var stored := db.StoreApiKey(userId, apiKey);
      if stored.Raised? {
        return Raised(stored.error);
      }
      r := Value(LoginDone);
    } else {
      r := Value(LoginUsage);
    }
  }

  /** The /logout handler: delete the user's key. */
  method Logout(db: Database.UsersDb, userId: string) returns (r: Outcome<string>)
    requires db.Valid()
    modifies db
    ensures db.Valid() && db.tableExists == old(db.tableExists)
    ensures db.rows == Database.Removed(old(db.rows), userId)
    ensures r == if old(db.tableExists) then Value(LogoutDone) else Raised(OperationalError)
  {
    var deleted := db.DeleteApiKey(userId);
    if deleted.Raised? {
      return Raised(deleted.error);
    }
    r := Value(LogoutDone);
  }

  // ---------------------------------------------------------------------
  // /start
  // ---------------------------------------------------------------------

  /** The entry a first-time user gets in the users file. */
  function FirstSeen(date: string): (entry: Json)
    ensures Items(entry) == Value([("first_seen", Str(date))])
    ensures Get(entry, "first_seen") == Value(Str(date))
  {
    Obj([("first_seen", Str(date))])
  }

  /** The users map after /start for `u`: an unseen user gets a `first_seen`
      entry; a known user, and every other entry, is left as it was. */
  function Registered(users: map<string, Json>, u: string, date: string): (r: map<string, Json>)
    ensures r.Keys == users.Keys + {u}
    ensures u in users ==> r == users
    ensures u !in users ==> r[u] == FirstSeen(date)
    ensures forall v :: v in users ==> r[v] == users[v]
  {
    if u in users then users else users[u := FirstSeen(date)]
  }

  /** Registering is idempotent: the first date seen is the one kept. */
  lemma RegisterKeepsFirstDate(users: map<string, Json>, u: string, first: string, later: string)
    ensures Registered(Registered(users, u, first), u, later) == Registered(users, u, first)
  {
  }

  /** The file `user_data.json` that /start reads and writes. */
  class UserFile {
    /** The users map the file holds, or None while the file does not exist. */
    var saved: Option<map<string, Json>>

    constructor (saved: Option<map<string, Json>>)
      ensures this.saved == saved
    {
      this.saved := saved;
    }

    /** load_users: the saved map, or an empty one when there is no file. */
    function Loaded(): (users: map<string, Json>)
      reads this
      ensures saved.None? ==> users == map[]
      ensures saved.Some? ==> users == saved.value
    {
      if saved.Some? then saved.value else map[]
    }

    /** The /start handler: register a first-time user and save the file (the
        file is written only then), and greet the user, welcoming a returning
        one back. `date` is the message date and `startMessage` the welcome text. */
    method Start(userId: string, date: string, startMessage: string) returns (reply: string)
      modifies this
      ensures saved == if userId in old(Loaded()) then old(saved) else Some(Registered(old(Loaded()), userId, date))
      ensures Loaded() == Registered(old(Loaded()), userId, date)
      ensures reply == if userId in old(Loaded()) then "Welcome back!\n" + startMessage else startMessage
    {
      var users := Loaded();
      if userId !in users {
        users := users[userId := FirstSeen(date)];
        saved := Some(users);
        reply := startMessage;
      } else {
        reply := "Welcome back!\n" + startMessage;
      }
    }
  }
}
