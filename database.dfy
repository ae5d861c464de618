/** The credential store: the sqlite table `users(user_id TEXT PRIMARY KEY,
    api_key TEXT)` holding each user's API key encrypted under the process-wide
    Fernet key. The table is a map from user id to the stored column value
    (None for SQL NULL); the cipher is a pair of
    functions where decryption undoes encryption. */
module Database {
  import opened Outcomes

  type UserId = string

  /** The rows of the users table: the primary key gives one row per user. */
  type Rows = map<UserId, Option<string>>

  /** The Fernet cipher under the configured key: encryption of the UTF-8 text
      and decryption back to text, which may reject a ciphertext. */
  datatype Cipher = Cipher(encrypt: string -> string, decrypt: string -> Outcome<string>)

  /** What the model takes from Fernet: a token is never empty, and decrypting
      a token gives back the plaintext it was made from. */
  ghost predicate RoundTrips(c: Cipher)
  {
    forall k :: c.encrypt(k) != [] && c.decrypt(c.encrypt(k)) == Value(k)
  }

  /** encrypt_api_key: the ciphertext stored for an API key. */
  function EncryptApiKey(c: Cipher, apiKey: string): (ct: string)
    requires RoundTrips(c)
    ensures ct != []
    ensures c.decrypt(ct) == Value(apiKey)
  {
    c.encrypt(apiKey)
  }

  /** decrypt_api_key: None for a NULL or empty column value, otherwise the
      decryption, which raises if the cipher rejects the token. */
  function DecryptApiKey(c: Cipher, stored: Option<string>): (r: Outcome<Option<string>>)
    ensures r == Value(None) <==> stored == None || stored == Some([])
    ensures r.Value? && r.value.Some? ==>
              stored.Some? && stored.value != [] && c.decrypt(stored.value) == Value(r.value.value)
    ensures r.Raised? ==> stored.Some? && c.decrypt(stored.value) == Raised(r.error)
  {
    if stored == None || stored == Some([]) then Value(None)
    else
      match c.decrypt(stored.value)
      case Value(k) => Value(Some(k))
      case Raised(e) => Raised(e)
  }

  /** The decryption round trip: a key that was encrypted decrypts to itself. */
  lemma DecryptInvertsEncrypt(c: Cipher, apiKey: string)
    requires RoundTrips(c)
    ensures DecryptApiKey(c, Some(EncryptApiKey(c, apiKey))) == Value(Some(apiKey))
  {
  }

  /** The table after `INSERT ... ON CONFLICT(user_id) DO UPDATE`: the user's
      row holds the new value whether or not it existed; no other row changes. */
  function Upserted(rows: Rows, u: UserId, ct: string): (r: Rows)
    ensures r.Keys == rows.Keys + {u}
    ensures r[u] == Some(ct)
    ensures forall v :: v in rows && v != u ==> r[v] == rows[v]
  {
    rows[u := Some(ct)]
  }

  /** The table after `DELETE FROM users WHERE user_id = ?`: the user's row is
      gone, whether or not it existed; no other row changes. */
  function Removed(rows: Rows, u: UserId): (r: Rows)
    ensures r.Keys == rows.Keys - {u}
    ensures forall v :: v in r ==> r[v] == rows[v]
  {
    rows - {u}
  }

  /** What get_api_key returns for a table with these rows: None when the user
      has no row or the row's value is NULL or empty, otherwise its decryption. */
  function Lookup(c: Cipher, rows: Rows, u: UserId): (r: Outcome<Option<string>>)
    ensures r == Value(None) <==> u !in rows || rows[u] == None || rows[u] == Some([])
    ensures r.Value? && r.value.Some? ==>
              u in rows && rows[u].Some? && rows[u].value != [] && c.decrypt(rows[u].value) == Value(r.value.value)
    ensures r.Raised? ==> u in rows && rows[u].Some? && c.decrypt(rows[u].value) == Raised(r.error)
    ensures u in rows && rows[u].Some? && rows[u].value != [] && c.decrypt(rows[u].value).Value? ==>
              r == Value(Some(c.decrypt(rows[u].value).value))
    ensures u in rows && rows[u].Some? && rows[u].value != [] && c.decrypt(rows[u].value).Raised? ==>
              r == Raised(c.decrypt(rows[u].value).error)
  {
    var result := if u in rows then Some(rows[u]) else None;
    if result.Some? && result.value.Some? && result.value.value != [] then
      DecryptApiKey(c, result.value)
    else
      Value(None)
  }

  /** Round trip: after a key is stored, fetching it gives that key back. */
  lemma StoreThenFetch(c: Cipher, rows: Rows, u: UserId, apiKey: string)
    requires RoundTrips(c)
    ensures Lookup(c, Upserted(rows, u, EncryptApiKey(c, apiKey)), u) == Value(Some(apiKey))
  {
  }

  /** Last write wins: storing twice for one user is storing the second value,
      and the table has exactly one row per user. */
  lemma StoreLastWins(rows: Rows, u: UserId, first: string, second: string)
    ensures Upserted(Upserted(rows, u, first), u, second) == Upserted(rows, u, second)
    ensures |Upserted(rows, u, first)| == if u in rows then |rows| else |rows| + 1
  {
    assert Upserted(Upserted(rows, u, first), u, second) == Upserted(rows, u, second);
    UpsertSize(rows, u, first);
  }

  /** The upsert adds a row exactly when the user had none. */
  lemma UpsertSize(rows: Rows, u: UserId, ct: string)
    ensures |Upserted(rows, u, ct)| == if u in rows then |rows| else |rows| + 1
  {
    assert Upserted(rows, u, ct) == rows[u := Some(ct)];
  }

  /** Isolation: storing or deleting for one user leaves what every other user
      fetches unchanged. */
  lemma OtherUsersUnaffected(c: Cipher, rows: Rows, u: UserId, v: UserId, ct: string)
    requires u != v
    ensures Lookup(c, Upserted(rows, u, ct), v) == Lookup(c, rows, v)
    ensures Lookup(c, Removed(rows, u), v) == Lookup(c, rows, v)
  {
  }

  /** A user without a row, or whose row holds NULL or an empty string, gets None. */
  lemma FetchWithoutKey(c: Cipher, rows: Rows, u: UserId)
    requires u !in rows || rows[u] == None || rows[u] == Some([])
    ensures Lookup(c, rows, u) == Value(None)
  {
  }

  /** After a delete the user gets None, and deleting again changes nothing. */
  lemma DeleteThenFetch(c: Cipher, rows: Rows, u: UserId)
    ensures Lookup(c, Removed(rows, u), u) == Value(None)
    ensures Removed(Removed(rows, u), u) == Removed(rows, u)
  {
  }

  /** The users table in the database file. Before setup there is no table,
      and every statement on it fails as sqlite does. */
  class UsersDb {
    /** The cipher under the process-wide key, created once at import. */
    const cipher: Cipher
    var tableExists: bool
    var rows: Rows

    ghost predicate Valid()
      reads this
    {
      RoundTrips(cipher) && (!tableExists ==> rows == map[])
    }

    /** The database file as the process finds it: possibly with the table
        and rows from an earlier run. */
    constructor (cipher: Cipher, tableExists: bool, rows: Rows)
      requires RoundTrips(cipher)
      requires !tableExists ==> rows == map[]
      ensures Valid()
      ensures this.cipher == cipher && this.tableExists == tableExists && this.rows == rows
    {
      this.cipher := cipher;
      this.tableExists := tableExists;
      this.rows := rows;
    }

    /** What get_api_key returns in the current state. */
    function ApiKeyOf(u: UserId): Outcome<Option<string>>
      reads this
    {
      if tableExists then Lookup(cipher, rows, u) else Raised(OperationalError)
    }

    /** setup_database: `CREATE TABLE IF NOT EXISTS`. An existing table keeps
        its rows, so calling it again changes nothing. */
    method SetupDatabase()
      requires Valid()
      modifies this
      ensures Valid() && tableExists && rows == old(rows)
    {
      if !tableExists {
        tableExists := true;
        rows := map[];
      }
    }

    /** store_api_key: encrypt, then upsert the user's row. */
    method StoreApiKey(u: UserId, apiKey: string) returns (r: Outcome<()>)
      requires Valid()
      modifies this
      ensures Valid() && tableExists == old(tableExists)
      ensures r == if old(tableExists) then Value(()) else Raised(OperationalError)
      ensures rows == if old(tableExists) then Upserted(old(rows), u, EncryptApiKey(cipher, apiKey))
                      else old(rows)
      ensures r.Value? ==> ApiKeyOf(u) == Value(Some(apiKey))
      ensures forall v :: v != u ==> ApiKeyOf(v) == old(ApiKeyOf(v))
    {
      var encryptedKey := EncryptApiKey(cipher, apiKey);
      if !tableExists {
        return Raised(OperationalError);
      }
      rows := rows[u := Some(encryptedKey)];
      r := Value(());
      StoreThenFetch(cipher, old(rows), u, apiKey);
    }

    /** get_api_key: read the user's row and decrypt it when it holds a value. */
    method GetApiKey(u: UserId) returns (r: Outcome<Option<string>>)
      requires Valid()
      ensures r == ApiKeyOf(u)
      ensures r.Value? && r.value.Some? ==>
                u in rows && rows[u].Some? && cipher.decrypt(rows[u].value) == Value(r.value.value)
      ensures tableExists && (u !in rows || rows[u] == None || rows[u] == Some([])) ==> r == Value(None)
    {
      if !tableExists {
        return Raised(OperationalError);
      }
      r := Lookup(cipher, rows, u);
    }

    /** delete_api_key: remove the user's row; deleting a missing row is no error. */
    method DeleteApiKey(u: UserId) returns (r: Outcome<()>)
      requires Valid()
      modifies this
      ensures Valid() && tableExists == old(tableExists)
      ensures r == if old(tableExists) then Value(()) else Raised(OperationalError)
      ensures rows == Removed(old(rows), u)
      ensures tableExists ==> ApiKeyOf(u) == Value(None)
      ensures forall v :: v != u ==> ApiKeyOf(v) == old(ApiKeyOf(v))
    {
      if !tableExists {
        return Raised(OperationalError);
      }
      rows := rows - {u};
      r := Value(());
    }
  }
}
