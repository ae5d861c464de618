/** The Bitpanda client: it turns the parsed bodies of `GET /asset-wallets`
    and `GET /fiatwallets` into flat wallet records and renders the wallets
    with a positive balance as a summary message. The HTTP call itself is not
    modelled: each operation receives the response's status and parsed body. */
module Bitpanda {
  import opened Outcomes
  import opened JsonTree
  import opened Text
  import Database

  const BaseUrl: string := "https://api.bitpanda.com/v1"
  const AssetWalletsUrl: string := BaseUrl + "/asset-wallets"
  const FiatWalletsUrl: string := BaseUrl + "/fiatwallets"

  /** Both operations answer a failed request with this text; the asset path
      reuses the fiat wording. */
  const FetchError: string := "❌ Error fetching fiat balances. Please try again."
  const NoAssets: string := "No assets found in your Bitpanda account."
  const NoFiat: string := "No fiat balances found"
  const AssetHeader: string := "📊 *Your Bitpanda Portfolio:*\n\n"
  const FiatHeader: string := "💰 *Your Fiat Wallet Balances:*\n\n"

  /** The Python built-ins the client relies on, left abstract: `float(x)`,
      the text an f-string gives a non-string value, and the two ways a
      balance is printed (`{x}` and `{x:.2f}`). */
  datatype Builtins = Builtins(
    float: Json -> Outcome<real>,
    str: Json -> string,
    repr: real -> string,
    fixed2: real -> string)

  /** An f-string field holding a JSON value: a string is inserted as is. */
  function Format(b: Builtins, j: Json): (s: string)
    ensures j.Str? ==> s == j.s
  {
    if j.Str? then j.s else b.str(j)
  }

  /** An HTTP response: its status code and, for status 200, its parsed body. */
  datatype Response = Response(status: int, body: Json)

  /** One entry of `asset_wallets`. */
  datatype AssetWallet = AssetWallet(category: string, walletId: Json, name: Json, symbol: Json, balance: real)

  /** One entry of `fiat_wallets`. */
  datatype FiatWallet = FiatWallet(name: Json, symbol: Json, balance: real)

  // ---------------------------------------------------------------------
  // Specification of the flattening
  // ---------------------------------------------------------------------

  /** A loop that appends f(x) for each x in turn: the list of results, or
      the exception of the first x for which f raises. */
  function Collect<T>(f: Json -> Outcome<T>, xs: seq<Json>): (r: Outcome<seq<T>>)
    ensures r.Value? <==> forall j :: 0 <= j < |xs| ==> f(xs[j]).Value?
    ensures r.Value? ==> |r.value| == |xs| && forall j :: 0 <= j < |xs| ==> f(xs[j]) == Value(r.value[j])
    ensures r.Raised? ==> exists j :: 0 <= j < |xs| && f(xs[j]) == Raised(r.error)
    decreases |xs|
  {
    if xs == [] then Value([])
    else
      var init :- Collect(f, xs[..|xs| - 1]);
      var last :- f(xs[|xs| - 1]);
      Value(init + [last])
  }

  /** Building the record of one asset wallet, in the evaluation order of the
      source: `wallet['attributes']`, then `wallet['id']`, `name`,
      `cryptocoin_symbol` and `float(balance)`. */
  function AssetRecord(b: Builtins, category: string, wallet: Json): (r: Outcome<AssetWallet>)
    ensures r.Value? ==>
      && r.value.category == category
      && Get(wallet, "id") == Value(r.value.walletId)
      && Get(wallet, "attributes").Value?
      && Get(Get(wallet, "attributes").value, "name") == Value(r.value.name)
      && Get(Get(wallet, "attributes").value, "cryptocoin_symbol") == Value(r.value.symbol)
      && Get(Get(wallet, "attributes").value, "balance").Value?
      && b.float(Get(Get(wallet, "attributes").value, "balance").value) == Value(r.value.balance)
    ensures (&& Get(wallet, "attributes").Value?
             && Get(wallet, "id").Value?
             && Get(Get(wallet, "attributes").value, "name").Value?
             && Get(Get(wallet, "attributes").value, "cryptocoin_symbol").Value?
             && Get(Get(wallet, "attributes").value, "balance").Value?
             && b.float(Get(Get(wallet, "attributes").value, "balance").value).Value?) ==> r.Value?
    ensures !wallet.Obj? ==> r == Raised(TypeError)
  {
    var attributes :- Get(wallet, "attributes");
    var id :- Get(wallet, "id");
    var name :- Get(attributes, "name");
    var symbol :- Get(attributes, "cryptocoin_symbol");
    var raw :- Get(attributes, "balance");
    var balance :- b.float(raw);
    Value(AssetWallet(category, id, name, symbol, balance))
  }

  /** The step of the inner loop of get_asset_balances, for one category. */
  function AssetRecordOf(b: Builtins, category: string): (f: Json -> Outcome<AssetWallet>)
    ensures forall w :: f(w) == AssetRecord(b, category, w)
  {
    w => AssetRecord(b, category, w)
  }

  /** Building the record of one fiat wallet: `wallet['attributes']`, then
      `name`, `fiat_symbol` and `float(balance)`. */
  function FiatRecord(b: Builtins, wallet: Json): (r: Outcome<FiatWallet>)
    ensures r.Value? ==>
      && Get(wallet, "attributes").Value?
      && Get(Get(wallet, "attributes").value, "name") == Value(r.value.name)
      && Get(Get(wallet, "attributes").value, "fiat_symbol") == Value(r.value.symbol)
      && Get(Get(wallet, "attributes").value, "balance").Value?
      && b.float(Get(Get(wallet, "attributes").value, "balance").value) == Value(r.value.balance)
    ensures (&& Get(wallet, "attributes").Value?
             && Get(Get(wallet, "attributes").value, "name").Value?
             && Get(Get(wallet, "attributes").value, "fiat_symbol").Value?
             && Get(Get(wallet, "attributes").value, "balance").Value?
             && b.float(Get(Get(wallet, "attributes").value, "balance").value).Value?) ==> r.Value?
    ensures !wallet.Obj? ==> r == Raised(TypeError)
  {
    var attributes :- Get(wallet, "attributes");
    var name :- Get(attributes, "name");
    var symbol :- Get(attributes, "fiat_symbol");
    var raw :- Get(attributes, "balance");
    var balance :- b.float(raw);
    Value(FiatWallet(name, symbol, balance))
  }

  /** The step of the loop of get_fiat_balances. */
  function FiatRecordOf(b: Builtins): (f: Json -> Outcome<FiatWallet>)
    ensures forall w :: f(w) == FiatRecord(b, w)
  {
    w => FiatRecord(b, w)
  }

  /** The records one category contributes: none unless its details have
      `attributes.wallets`, otherwise one per wallet, tagged with the category. */
  function CategoryWallets(b: Builtins, category: string, details: Json): (r: Outcome<seq<AssetWallet>>)
    ensures details.Obj? && !HasKey(details.members, "attributes") ==> r == Value([])
    ensures (details.Obj? && Get(details, "attributes").Value? &&
             Get(details, "attributes").value.Obj? &&
             !HasKey(Get(details, "attributes").value.members, "wallets")) ==> r == Value([])
    ensures r.Value? ==> forall k :: 0 <= k < |r.value| ==> r.value[k].category == category
  {
    var hasAttributes :- Contains("attributes", details);
    if !hasAttributes then Value([])
    else
      var attributes :- Get(details, "attributes");
      var hasWallets :- Contains("wallets", attributes);
      if !hasWallets then Value([])
      else
        var wallets :- Get(attributes, "wallets");
        var items :- Iterate(wallets);
        Collect(AssetRecordOf(b, category), items)
  }

  /** The body of the outer loop of get_asset_balances, as a function of one
      `(category, details)` item. */
  function CategoryWalletsOf(b: Builtins): (f: ((string, Json)) -> Outcome<seq<AssetWallet>>)
    ensures forall c :: f(c) == CategoryWallets(b, c.0, c.1)
  {
    (c: (string, Json)) => CategoryWallets(b, c.0, c.1)
  }

  /** A loop that extends one list by f(x) for each x in turn: the
      concatenation of the results, or the exception of the first x for
      which f raises. */
  function ConcatAll<X, T>(f: X -> Outcome<seq<T>>, xs: seq<X>): (r: Outcome<seq<T>>)
    ensures r.Value? <==> forall j :: 0 <= j < |xs| ==> f(xs[j]).Value?
    ensures r.Raised? ==> exists j :: 0 <= j < |xs| && f(xs[j]) == Raised(r.error)
    decreases |xs|
  {
    if xs == [] then Value([])
    else
      var init :- ConcatAll(f, xs[..|xs| - 1]);
      var more :- f(xs[|xs| - 1]);
      Value(init + more)
  }

  /** The nested loops over the categories: the records of every category in
      turn, or the first exception. */
  function FlattenCategories(b: Builtins, categories: seq<(string, Json)>): (r: Outcome<seq<AssetWallet>>)
    ensures r.Value? <==> forall j :: 0 <= j < |categories| ==> CategoryWallets(b, categories[j].0, categories[j].1).Value?
    ensures r.Raised? ==> exists j :: 0 <= j < |categories| &&
                                      CategoryWallets(b, categories[j].0, categories[j].1) == Raised(r.error)
  {
    ConcatAll(CategoryWalletsOf(b), categories)
  }

  /** The flat list `asset_wallets` built from the body of `/asset-wallets`. */
  function AssetWallets(b: Builtins, body: Json): (r: Outcome<seq<AssetWallet>>)
    ensures !body.Obj? ==> r == Raised(TypeError)
    ensures body.Obj? && !HasKey(body.members, "data") ==> r == Raised(KeyError)
    ensures r.Value? ==>
              && Get(body, "data").Value?
              && Get(Get(body, "data").value, "attributes").Value?
              && Get(Get(body, "data").value, "attributes").value.Obj?
              && r == FlattenCategories(b, Get(Get(body, "data").value, "attributes").value.members)
  {
    var data :- Get(body, "data");
    var attributes :- Get(data, "attributes");
    var categories :- Items(attributes);
    FlattenCategories(b, categories)
  }

  /** The list `fiat_wallets` built from the body of `/fiatwallets`. */
  function FiatWallets(b: Builtins, body: Json): (r: Outcome<seq<FiatWallet>>)
    ensures !body.Obj? ==> r == Raised(TypeError)
    ensures body.Obj? && !HasKey(body.members, "data") ==> r == Raised(KeyError)
    ensures r.Value? ==>
              && Get(body, "data").Value?
              && Iterate(Get(body, "data").value).Value?
              && |r.value| == |Iterate(Get(body, "data").value).value|
  {
    var data :- Get(body, "data");
    var items :- Iterate(data);
    Collect(FiatRecordOf(b), items)
  }

  // ---------------------------------------------------------------------
  // Specification of the summary
  // ---------------------------------------------------------------------

  /** A summary line: `🔹 *NAME* (SYMBOL)` followed by the separator, the
      balance text and a line break. Name, symbol and balance all occur in it. */
  function SummaryLine(name: string, symbol: string, separator: string, balance: string): (line: string)
    ensures "🔹 *" <= line && line[|line| - 1] == '\n'
    ensures IsSubstring(name, line) && IsSubstring(symbol, line) && IsSubstring(balance, line)
  {
    var before := "🔹 *" + name + "* (";
    var after := separator + balance + "\n";
    InMiddle("🔹 *", name, "* (" + symbol + after);
    InMiddle(before, symbol, after);
    InMiddle(before + symbol + separator, balance, "\n");
    assert "🔹 *" + name + ("* (" + symbol + after) == before + symbol + after;
    assert (before + symbol + separator) + balance + "\n" == before + symbol + after;
    before + symbol + after
  }

  /** The summary line of an asset wallet, with the balance as `{x}` prints it. */
  function AssetLine(b: Builtins, w: AssetWallet): (line: string)
    ensures "🔹 *" <= line && line[|line| - 1] == '\n'
    ensures IsSubstring(Format(b, w.name), line) && IsSubstring(Format(b, w.symbol), line)
    ensures IsSubstring(b.repr(w.balance), line)
  {
    SummaryLine(Format(b, w.name), Format(b, w.symbol), "): ", b.repr(w.balance))
  }

  /** The summary line of a fiat wallet, with the balance in euro to two decimals. */
  function FiatLine(b: Builtins, w: FiatWallet): (line: string)
    ensures "🔹 *" <= line && line[|line| - 1] == '\n'
    ensures IsSubstring(Format(b, w.name), line) && IsSubstring(Format(b, w.symbol), line)
    ensures IsSubstring(b.fixed2(w.balance), line)
  {
    SummaryLine(Format(b, w.name), Format(b, w.symbol), "): €", b.fixed2(w.balance))
  }

  function AssetBalance(w: AssetWallet): real { w.balance }

  function FiatBalance(w: FiatWallet): real { w.balance }

  function AssetLineOf(b: Builtins): (f: AssetWallet -> string)
    ensures forall w :: f(w) == AssetLine(b, w)
  {
    w => AssetLine(b, w)
  }

  function FiatLineOf(b: Builtins): (f: FiatWallet -> string)
    ensures forall w :: f(w) == FiatLine(b, w)
  {
    w => FiatLine(b, w)
  }

  /** The lines the summary loop appends: one per wallet whose balance is
      positive, in list order. */
  function Lines<T>(line: T -> string, balance: T -> real, ws: seq<T>): string
    decreases |ws|
  {
    if ws == [] then ""
    else
      var last := ws[|ws| - 1];
      Lines(line, balance, ws[..|ws| - 1]) + (if balance(last) > 0.0 then line(last) else "")
  }

  /** The wallets with a positive balance, in list order. */
  function Positive<T>(balance: T -> real, ws: seq<T>): (p: seq<T>)
    ensures |p| <= |ws|
    ensures forall k :: 0 <= k < |p| ==> balance(p[k]) > 0.0 && p[k] in ws
    ensures forall k :: 0 <= k < |ws| && balance(ws[k]) > 0.0 ==> ws[k] in p
    decreases |ws|
  {
    if ws == [] then []
    else
      var init := Positive(balance, ws[..|ws| - 1]);
      if balance(ws[|ws| - 1]) > 0.0 then init + [ws[|ws| - 1]] else init
  }

  /** The text get_asset_balances returns for a response. */
  function AssetBalances(b: Builtins, response: Response): (r: Outcome<string>)
    ensures response.status != 200 ==> r == Value(FetchError)
    ensures response.status == 200 ==>
              && (r.Raised? <==> AssetWallets(b, response.body).Raised?)
              && (r.Raised? ==> r.error == AssetWallets(b, response.body).error)
              && (AssetWallets(b, response.body) == Value([]) ==> r == Value(NoAssets))
              && (AssetWallets(b, response.body).Value? && AssetWallets(b, response.body).value != [] ==>
                    r.Value? && AssetHeader <= r.value)
  {
    if response.status != 200 then Value(FetchError)
    else
      var wallets :- AssetWallets(b, response.body);
      if wallets == [] then Value(NoAssets)
      else Value(AssetHeader + Lines(AssetLineOf(b), AssetBalance, wallets))
  }

  /** The text get_fiat_balances returns for a response. */
  function FiatBalances(b: Builtins, response: Response): (r: Outcome<string>)
    ensures response.status != 200 ==> r == Value(FetchError)
    ensures response.status == 200 ==>
              && (r.Raised? <==> FiatWallets(b, response.body).Raised?)
              && (r.Raised? ==> r.error == FiatWallets(b, response.body).error)
              && (FiatWallets(b, response.body) == Value([]) ==> r == Value(NoFiat))
              && (FiatWallets(b, response.body).Value? && FiatWallets(b, response.body).value != [] ==>
                    r.Value? && FiatHeader <= r.value)
  {
    if response.status != 200 then Value(FetchError)
    else
      var wallets :- FiatWallets(b, response.body);
      if wallets == [] then Value(NoFiat)
      else Value(FiatHeader + Lines(FiatLineOf(b), FiatBalance, wallets))
  }

  // ---------------------------------------------------------------------
  // Properties
  // ---------------------------------------------------------------------

  /** Once a prefix of the list raises, the whole loop raises the same. */
  lemma {:induction false} CollectPrefixRaises<T>(f: Json -> Outcome<T>, xs: seq<Json>, n: nat)
    requires n <= |xs| && Collect(f, xs[..n]).Raised?
    ensures Collect(f, xs) == Collect(f, xs[..n])
    decreases |xs| - n
  {
    if n < |xs| {
      var m := |xs| - 1;
      assert xs[..m][..n] == xs[..n];
      CollectPrefixRaises(f, xs[..m], n);
    } else {
      assert xs[..n] == xs;
    }
  }

  /** Once a prefix of the items raises, the whole loop raises the same. */
  lemma {:induction false} ConcatPrefixRaises<X, T>(f: X -> Outcome<seq<T>>, xs: seq<X>, n: nat)
    requires n <= |xs| && ConcatAll(f, xs[..n]).Raised?
    ensures ConcatAll(f, xs) == ConcatAll(f, xs[..n])
    decreases |xs| - n
  {
    if n < |xs| {
      var m := |xs| - 1;
      assert xs[..m][..n] == xs[..n];
      ConcatPrefixRaises(f, xs[..m], n);
    } else {
      assert xs[..n] == xs;
    }
  }

  /** The loop over two runs of items gives the output of the first run
      followed by that of the second: output order is item order. */
  lemma {:induction false} ConcatAppend<X, T>(f: X -> Outcome<seq<T>>, xs1: seq<X>, xs2: seq<X>)
    requires ConcatAll(f, xs1).Value? && ConcatAll(f, xs2).Value?
    ensures ConcatAll(f, xs1 + xs2) == Value(ConcatAll(f, xs1).value + ConcatAll(f, xs2).value)
    decreases |xs2|
  {
    var v1 := ConcatAll(f, xs1).value;
    if xs2 != [] {
      var n := |xs2| - 1;
      var w := ConcatAll(f, xs2[..n]).value;
      var more := f(xs2[n]).value;
      assert ConcatAll(f, xs2).value == w + more;
      assert (xs1 + xs2)[..|xs1 + xs2| - 1] == xs1 + xs2[..n];
      assert (xs1 + xs2)[|xs1 + xs2| - 1] == xs2[n];
      ConcatAppend(f, xs1, xs2[..n]);
      assert (v1 + w) + more == v1 + (w + more);
    } else {
      assert xs1 + xs2 == xs1;
      assert v1 + [] == v1;
    }
  }

  /** A single item contributes exactly its own output. */
  lemma ConcatOne<X, T>(f: X -> Outcome<seq<T>>, x: X)
    ensures ConcatAll(f, [x]) == f(x)
  {
    assert [x][..0] == [];
    if f(x).Value? {
      assert [] + f(x).value == f(x).value;
    }
  }

  /** The walk over two runs of categories is the walk over the first followed
      by the walk over the second, and one category contributes exactly its
      own records: the output is the records of each category in category order. */
  lemma FlattenAppend(b: Builtins, cs1: seq<(string, Json)>, cs2: seq<(string, Json)>)
    requires FlattenCategories(b, cs1).Value? && FlattenCategories(b, cs2).Value?
    ensures FlattenCategories(b, cs1 + cs2) ==
            Value(FlattenCategories(b, cs1).value + FlattenCategories(b, cs2).value)
    ensures forall c :: FlattenCategories(b, [c]) == CategoryWallets(b, c.0, c.1)
  {
    ConcatAppend(CategoryWalletsOf(b), cs1, cs2);
    forall c ensures FlattenCategories(b, [c]) == CategoryWallets(b, c.0, c.1) {
      ConcatOne(CategoryWalletsOf(b), c);
    }
  }

  /** A category whose details lack `attributes.wallets` is skipped without error. */
  lemma SkipCategoryWithoutWallets(b: Builtins, cs1: seq<(string, Json)>, c: (string, Json), cs2: seq<(string, Json)>)
    requires CategoryWallets(b, c.0, c.1) == Value([])
    requires FlattenCategories(b, cs1).Value? && FlattenCategories(b, cs2).Value?
    ensures FlattenCategories(b, cs1 + [c] + cs2) == FlattenCategories(b, cs1 + cs2)
  {
    var f := CategoryWalletsOf(b);
    var v1 := ConcatAll(f, cs1).value;
    ConcatOne(f, c);
    ConcatAppend(f, cs1, [c]);
    assert v1 + [] == v1;
    ConcatAppend(f, cs1 + [c], cs2);
    ConcatAppend(f, cs1, cs2);
  }

  /** A category whose details have a wallet list contributes the records of
      its wallets. */
  lemma CategoryWithWalletList(b: Builtins, category: string, details: Json, wallets: seq<Json>)
    requires details.Obj? && Get(details, "attributes").Value?
    requires Get(details, "attributes").value.Obj?
    requires Get(Get(details, "attributes").value, "wallets") == Value(Arr(wallets))
    ensures CategoryWallets(b, category, details) == Collect(AssetRecordOf(b, category), wallets)
  {
    var attributes := Get(details, "attributes").value;
    assert Contains("attributes", details) == Value(true);
    assert Contains("wallets", attributes) == Value(true);
  }

  /** The records of a wallet list: exactly one per wallet, in wallet order,
      each tagged with the category and carrying that wallet's name and symbol. */
  lemma RecordsPerWallet(b: Builtins, category: string, wallets: seq<Json>, rs: seq<AssetWallet>)
    requires Collect(AssetRecordOf(b, category), wallets) == Value(rs)
    ensures |rs| == |wallets|
    ensures forall j :: 0 <= j < |wallets| ==>
              && rs[j].category == category
              && Get(wallets[j], "attributes").Value?
              && Get(Get(wallets[j], "attributes").value, "name") == Value(rs[j].name)
              && Get(Get(wallets[j], "attributes").value, "cryptocoin_symbol") == Value(rs[j].symbol)
  {
    forall j | 0 <= j < |wallets|
      ensures AssetRecord(b, category, wallets[j]) == Value(rs[j])
    {
      assert AssetRecordOf(b, category)(wallets[j]) == Value(rs[j]);
    }
  }

  /** The fiat list maps the `data` list one to one and in order. */
  lemma FiatRecordsPerItem(b: Builtins, body: Json, items: seq<Json>)
    requires Get(body, "data") == Value(Arr(items))
    ensures FiatWallets(b, body).Value? <==> forall j :: 0 <= j < |items| ==> FiatRecord(b, items[j]).Value?
    ensures FiatWallets(b, body).Value? ==>
              |FiatWallets(b, body).value| == |items| &&
              forall j :: 0 <= j < |items| ==> FiatRecord(b, items[j]) == Value(FiatWallets(b, body).value[j])
  {
    var f := FiatRecordOf(b);
    assert FiatWallets(b, body) == Collect(f, items);
    forall j | 0 <= j < |items| ensures f(items[j]) == FiatRecord(b, items[j]) { }
  }

  /** The summary lines of two runs of wallets are the lines of the first
      followed by the lines of the second. */
  lemma {:induction false} LinesAppend<T>(line: T -> string, balance: T -> real, ws1: seq<T>, ws2: seq<T>)
    ensures Lines(line, balance, ws1 + ws2) == Lines(line, balance, ws1) + Lines(line, balance, ws2)
    decreases |ws2|
  {
    if ws2 == [] {
      assert ws1 + ws2 == ws1;
    } else {
      var n := |ws2| - 1;
      assert (ws1 + ws2)[..|ws1 + ws2| - 1] == ws1 + ws2[..n];
      assert (ws1 + ws2)[|ws1 + ws2| - 1] == ws2[n];
      LinesAppend(line, balance, ws1, ws2[..n]);
    }
  }

  /** A list without a positive balance adds no line at all. */
  lemma {:induction false} LinesWithoutPositive<T>(line: T -> string, balance: T -> real, ws: seq<T>)
    requires forall k :: 0 <= k < |ws| ==> balance(ws[k]) <= 0.0
    ensures Lines(line, balance, ws) == ""
    decreases |ws|
  {
    if ws != [] {
      var n := |ws| - 1;
      assert forall k :: 0 <= k < n ==> ws[..n][k] == ws[k];
      LinesWithoutPositive(line, balance, ws[..n]);
    }
  }

  /** Only wallets with a positive balance contribute: the summary of a list
      is the summary of its positive wallets, each of which gives its line. */
  lemma {:induction false} LinesOfPositive<T>(line: T -> string, balance: T -> real, ws: seq<T>)
    ensures Lines(line, balance, ws) == Lines(line, balance, Positive(balance, ws))
    decreases |ws|
  {
    if ws != [] {
      var n := |ws| - 1;
      var p := Positive(balance, ws[..n]);
      LinesOfPositive(line, balance, ws[..n]);
      if balance(ws[n]) > 0.0 {
        LinesAppend(line, balance, p, [ws[n]]);
        assert [ws[n]][..0] == [];
      }
    }
  }

  /** The positive wallets of two runs are those of the first followed by
      those of the second: the selection keeps list order and multiplicity. */
  lemma {:induction false} PositiveAppend<T>(balance: T -> real, ws1: seq<T>, ws2: seq<T>)
    ensures Positive(balance, ws1 + ws2) == Positive(balance, ws1) + Positive(balance, ws2)
    decreases |ws2|
  {
    if ws2 == [] {
      assert ws1 + ws2 == ws1;
    } else {
      var n := |ws2| - 1;
      assert (ws1 + ws2)[..|ws1 + ws2| - 1] == ws1 + ws2[..n];
      assert (ws1 + ws2)[|ws1 + ws2| - 1] == ws2[n];
      PositiveAppend(balance, ws1, ws2[..n]);
    }
  }

  /** A failed request gives the same fixed text from both operations,
      whatever the body. */
  lemma NonOkStatusIgnoresBody(b: Builtins, status: int, body1: Json, body2: Json)
    requires status != 200
    ensures AssetBalances(b, Response(status, body1)) == Value(FetchError)
    ensures FiatBalances(b, Response(status, body2)) == AssetBalances(b, Response(status, body1))
  {
  }

  /** A wallet of the shape the asset endpoint sends, with a balance that
      `float` accepts, yields the record of its fields. */
  lemma AssetWalletShape(b: Builtins, category: string, id: Json, name: Json, symbol: Json, raw: Json, balance: real)
    requires b.float(raw) == Value(balance)
    ensures AssetRecord(b, category,
              Obj([("attributes", Obj([("name", name), ("cryptocoin_symbol", symbol), ("balance", raw)])),
                   ("id", id)]))
            == Value(AssetWallet(category, id, name, symbol, balance))
  {
    var ams := [("name", name), ("cryptocoin_symbol", symbol), ("balance", raw)];
    var wms := [("attributes", Obj(ams)), ("id", id)];
    assert Get(Obj(wms), "attributes") == Value(Obj(ams));
    assert Get(Obj(wms), "id") == Value(id) by {
      assert |"attributes"| != |"id"|;
      assert Find(wms, "id") == Find(wms[1..], "id");
      assert wms[1..] == [("id", id)];
    }
    assert Get(Obj(ams), "name") == Value(name);
    assert Get(Obj(ams), "cryptocoin_symbol") == Value(symbol) by {
      assert |"name"| != |"cryptocoin_symbol"|;
      assert Find(ams, "cryptocoin_symbol") == Find(ams[1..], "cryptocoin_symbol");
      assert ams[1..][0].0 == "cryptocoin_symbol";
    }
    assert Get(Obj(ams), "balance") == Value(raw) by {
      assert |"name"| != |"balance"| && |"cryptocoin_symbol"| != |"balance"|;
      assert Find(ams, "balance") == Find(ams[1..], "balance");
      assert Find(ams[1..], "balance") == Find(ams[1..][1..], "balance");
      assert ams[1..][1..] == [("balance", raw)];
    }
  }

  /** The asset list of a body is the walk over its `data.attributes` categories. */
  lemma AssetWalletsOfCategories(b: Builtins, body: Json, categories: seq<(string, Json)>)
    requires Get(body, "data").Value?
    requires Get(Get(body, "data").value, "attributes") == Value(Obj(categories))
    ensures AssetWallets(b, body) == FlattenCategories(b, categories)
  {
  }

  /** Two categories of which the second contributes nothing give the records
      of the first. */
  lemma FlattenFirstOfTwo(b: Builtins, x: (string, Json), y: (string, Json))
    requires CategoryWallets(b, x.0, x.1).Value? && CategoryWallets(b, y.0, y.1) == Value([])
    ensures FlattenCategories(b, [x, y]) == CategoryWallets(b, x.0, x.1)
  {
    FlattenAppend(b, [x], [y]);
    assert [x] + [y] == [x, y];
    assert CategoryWallets(b, x.0, x.1).value + [] == CategoryWallets(b, x.0, x.1).value;
  }

  /** The flattening of a portfolio with two categories, the first holding a
      wallet container and the second no wallet list: one record per wallet
      of the first category, in order and tagged with it, and nothing for the
      second, without error. */
  lemma TwoCategoriesOneWithoutWallets(b: Builtins, body: Json, c1: string, d1: Json, wallets: seq<Json>,
                                       c2: string, d2: Json)
    requires Get(body, "data").Value?
    requires Get(Get(body, "data").value, "attributes") == Value(Obj([(c1, d1), (c2, d2)]))
    requires d1.Obj? && Get(d1, "attributes").Value? && Get(d1, "attributes").value.Obj?
    requires Get(Get(d1, "attributes").value, "wallets") == Value(Arr(wallets))
    requires forall j :: 0 <= j < |wallets| ==> AssetRecord(b, c1, wallets[j]).Value?
    requires d2.Obj? && !HasKey(d2.members, "attributes")
    ensures AssetWallets(b, body).Value?
    ensures |AssetWallets(b, body).value| == |wallets|
    ensures forall j :: 0 <= j < |wallets| ==>
              && AssetWallets(b, body).value[j] == AssetRecord(b, c1, wallets[j]).value
              && AssetWallets(b, body).value[j].category == c1
  {
    var f := AssetRecordOf(b, c1);
    assert CategoryWallets(b, c1, d1) == Collect(f, wallets) by {
      CategoryWithWalletList(b, c1, d1, wallets);
    }
    assert forall j :: 0 <= j < |wallets| ==> f(wallets[j]).Value?;
    var rs := Collect(f, wallets).value;
    AssetWalletsOfCategories(b, body, [(c1, d1), (c2, d2)]);
    FlattenFirstOfTwo(b, (c1, d1), (c2, d2));
    assert AssetWallets(b, body) == Value(rs);
    forall j | 0 <= j < |wallets|
      ensures rs[j] == AssetRecord(b, c1, wallets[j]).value
    {
      assert f(wallets[j]) == Value(rs[j]);
    }
  }

  /** A successful asset response with wallets gives the header followed
      by the lines of the wallets with a positive balance, in wallet order. */
  lemma AssetSummaryOfPositive(b: Builtins, body: Json)
    requires AssetWallets(b, body).Value? && AssetWallets(b, body).value != []
    ensures AssetBalances(b, Response(200, body)) ==
            Value(AssetHeader + Lines(AssetLineOf(b), AssetBalance, Positive(AssetBalance, AssetWallets(b, body).value)))
  {
    LinesOfPositive(AssetLineOf(b), AssetBalance, AssetWallets(b, body).value);
  }

  /** A successful fiat response with wallets gives the header followed by
      the lines of the wallets with a positive balance, in wallet order. */
  lemma FiatSummaryOfPositive(b: Builtins, body: Json)
    requires FiatWallets(b, body).Value? && FiatWallets(b, body).value != []
    ensures FiatBalances(b, Response(200, body)) ==
            Value(FiatHeader + Lines(FiatLineOf(b), FiatBalance, Positive(FiatBalance, FiatWallets(b, body).value)))
  {
    LinesOfPositive(FiatLineOf(b), FiatBalance, FiatWallets(b, body).value);
  }

  /** When every wallet has a zero (or negative) balance, the summary is the
      header alone, which differs from the "no assets" text. */
  lemma ZeroBalancesGiveHeaderOnly(b: Builtins, body: Json)
    requires AssetWallets(b, body).Value? && AssetWallets(b, body).value != []
    requires forall k :: 0 <= k < |AssetWallets(b, body).value| ==> AssetWallets(b, body).value[k].balance <= 0.0
    ensures AssetBalances(b, Response(200, body)) == Value(AssetHeader)
    ensures AssetHeader != NoAssets
  {
    var ws := AssetWallets(b, body).value;
    assert forall k :: 0 <= k < |ws| ==> AssetBalance(ws[k]) <= 0.0;
    LinesWithoutPositive(AssetLineOf(b), AssetBalance, ws);
    assert Lines(AssetLineOf(b), AssetBalance, ws) == "";
    assert AssetHeader + "" == AssetHeader;
    assert AssetHeader[0] != NoAssets[0];
  }

  /** The same for the fiat summary: only zero balances give the header alone. */
  lemma FiatZeroBalancesGiveHeaderOnly(b: Builtins, body: Json)
    requires FiatWallets(b, body).Value? && FiatWallets(b, body).value != []
    requires forall k :: 0 <= k < |FiatWallets(b, body).value| ==> FiatWallets(b, body).value[k].balance <= 0.0
    ensures FiatBalances(b, Response(200, body)) == Value(FiatHeader)
    ensures FiatHeader != NoFiat
  {
    var ws := FiatWallets(b, body).value;
    assert forall k :: 0 <= k < |ws| ==> FiatBalance(ws[k]) <= 0.0;
    LinesWithoutPositive(FiatLineOf(b), FiatBalance, ws);
    assert Lines(FiatLineOf(b), FiatBalance, ws) == "";
    assert FiatHeader + "" == FiatHeader;
    assert FiatHeader[0] != NoFiat[0];
  }

  // ---------------------------------------------------------------------
  // The client
  // ---------------------------------------------------------------------

  /** The check in the client's constructor: the stored key, or ValueError
      when there is none or it is empty; an exception from the store passes through. */
  function ClientKey(fetched: Outcome<Option<string>>): (r: Outcome<string>)
    ensures r == Raised(ValueError) <==> fetched == Value(None) || fetched == Value(Some([])) ||
                                         fetched == Raised(ValueError)
    ensures r.Value? ==> r.value != [] && fetched == Value(Some(r.value))
    ensures fetched.Raised? ==> r == Raised(fetched.error)
    ensures fetched.Value? && fetched.value.Some? && fetched.value.value != [] ==> r == Value(fetched.value.value)
  {
    match fetched
    case Raised(e) => Raised(e)
    case Value(key) =>
      if key == None || key == Some([]) then Raised(ValueError) else Value(key.value)
  }

  /** The summary loop: start from the header and append the line of every
      wallet with a positive balance. */
  method Summarize<T>(header: string, line: T -> string, balance: T -> real, wallets: seq<T>)
    returns (message: string)
    ensures message == header + Lines(line, balance, wallets)
  {
    message := header;
    for i := 0 to |wallets|
      invariant message == header + Lines(line, balance, wallets[..i])
    {
      assert wallets[..i + 1][..i] == wallets[..i];
      if balance(wallets[i]) > 0.0 {
        message := message + line(wallets[i]);
      }
    }
    assert wallets[..|wallets|] == wallets;
  }

  /** A loop that appends f(x) for each x in turn, stopping at the first
      exception: the inner loop of get_asset_balances and the loop of
      get_fiat_balances. */
  method CollectLoop<T>(f: Json -> Outcome<T>, xs: seq<Json>) returns (r: Outcome<seq<T>>)
    ensures r == Collect(f, xs)
  {
    var acc: seq<T> := [];
    var j := 0;
    while j < |xs|
      invariant 0 <= j <= |xs|
      invariant Collect(f, xs[..j]) == Value(acc)
    {
      assert xs[..j + 1][..j] == xs[..j];
      var item := f(xs[j]);
      if item.Raised? {
        CollectPrefixRaises(f, xs, j + 1);
        return Raised(item.error);
      }
      acc := acc + [item.value];
      j := j + 1;
    }
    assert xs[..|xs|] == xs;
    return Value(acc);
  }

  /** The body of the outer loop of get_asset_balances for one category. */
  method WalletsOfCategory(b: Builtins, category: string, details: Json) returns (r: Outcome<seq<AssetWallet>>)
    ensures r == CategoryWallets(b, category, details)
  {
    var hasAttributes :- Contains("attributes", details);
    if !hasAttributes {
      return Value([]);
    }
    var attributes :- Get(details, "attributes");
    var hasWallets :- Contains("wallets", attributes);
    if !hasWallets {
      return Value([]);
    }
    var wallets :- Get(attributes, "wallets");
    var items :- Iterate(wallets);
    r := CollectLoop(AssetRecordOf(b, category), items);
  }

  /** One pass of the outer loop: the next category's records extend the
      list, or its exception is the result of the whole walk. */
  lemma FlattenStep(b: Builtins, categories: seq<(string, Json)>, i: nat, acc: seq<AssetWallet>)
    requires i < |categories| && FlattenCategories(b, categories[..i]) == Value(acc)
    ensures var more := CategoryWallets(b, categories[i].0, categories[i].1);
            && (more.Value? ==> FlattenCategories(b, categories[..i + 1]) == Value(acc + more.value))
            && (more.Raised? ==> FlattenCategories(b, categories) == Raised(more.error))
  {
    var f := CategoryWalletsOf(b);
    assert categories[..i + 1][..i] == categories[..i];
    assert f(categories[i]) == CategoryWallets(b, categories[i].0, categories[i].1);
    if f(categories[i]).Raised? {
      ConcatPrefixRaises(f, categories, i + 1);
    }
  }

  /** The nested loops of get_asset_balances that fill `asset_wallets`. */
  method FlattenAssetWallets(b: Builtins, body: Json) returns (r: Outcome<seq<AssetWallet>>)
    ensures r == AssetWallets(b, body)
  {
    var data :- Get(body, "data");
    var attributes :- Get(data, "attributes");
    var categories :- Items(attributes);
    var assetWallets: seq<AssetWallet> := [];
    var i := 0;
    while i < |categories|
      invariant 0 <= i <= |categories|
      invariant FlattenCategories(b, categories[..i]) == Value(assetWallets)
    {
      var (category, details) := categories[i];
      var more := WalletsOfCategory(b, category, details);
      FlattenStep(b, categories, i, assetWallets);
      if more.Raised? {
        return Raised(more.error);
      }
      assetWallets := assetWallets + more.value;
      i := i + 1;
    }
    assert categories[..|categories|] == categories;
    return Value(assetWallets);
  }

  /** The loop of get_fiat_balances that fills `fiat_wallets`. */
  method FlattenFiatWallets(b: Builtins, body: Json) returns (r: Outcome<seq<FiatWallet>>)
    ensures r == FiatWallets(b, body)
  {
    var data :- Get(body, "data");
    var items :- Iterate(data);
    r := CollectLoop(FiatRecordOf(b), items);
  }

  /** BitpandaClient: built for one user from the key in the credential store;
      every request it makes carries that key in its `X-Api-Key` header. */
  class BitpandaClient {
    const userId: string
    const apiKey: string
    const headers: map<string, string>

    constructor (userId: string, apiKey: string)
      requires apiKey != []
      ensures this.userId == userId && this.apiKey == apiKey
      ensures headers == map["X-Api-Key" := apiKey]
    {
      this.userId := userId;
      this.apiKey := apiKey;
      this.headers := map["X-Api-Key" := apiKey];
    }

    /** `BitpandaClient(user_id)`: look the key up and refuse a missing or empty one. */
    static method Create(db: Database.UsersDb, userId: string) returns (r: Outcome<BitpandaClient>)
      requires db.Valid()
      ensures r.Raised? ==> ClientKey(db.ApiKeyOf(userId)) == Raised(r.error)
      ensures r.Value? ==> ClientKey(db.ApiKeyOf(userId)) == Value(r.value.apiKey) &&
                           r.value.userId == userId && r.value.headers == map["X-Api-Key" := r.value.apiKey] &&
                           fresh(r.value)
    {
      var apiKey := db.GetApiKey(userId);
      var key := ClientKey(apiKey);
      if key.Raised? {
        return Raised(key.error);
      }
      var client := new BitpandaClient(userId, key.value);
      return Value(client);
    }

    /** get_asset_balances, given the response to `GET /asset-wallets`. */
    method GetAssetBalances(b: Builtins, response: Response) returns (r: Outcome<string>)
      ensures r == AssetBalances(b, response)
    {
      if response.status != 200 {
        return Value(FetchError);
      }
      var assetWallets :- FlattenAssetWallets(b, response.body);
      if assetWallets == [] {
        return Value(NoAssets);
      }
      var message := Summarize(AssetHeader, AssetLineOf(b), AssetBalance, assetWallets);
      return Value(message);
    }

    /** get_fiat_balances, given the response to `GET /fiatwallets`. */
    method GetFiatBalances(b: Builtins, response: Response) returns (r: Outcome<string>)
      ensures r == FiatBalances(b, response)
    {
      if response.status != 200 {
        return Value(FetchError);
      }
      var fiatWallets :- FlattenFiatWallets(b, response.body);
      if fiatWallets == [] {
        return Value(NoFiat);
      }
      var message := Summarize(FiatHeader, FiatLineOf(b), FiatBalance, fiatWallets);
      return Value(message);
    }
  }
}
