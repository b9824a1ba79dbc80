/**
 * AESField: a character column whose values are encrypted by MySQL on the
 * way in and decrypted on the way out. Stored ciphertext carries a prefix
 * (by default "aes:") followed by the hexadecimal AES ciphertext.
 */
module AesField {
  import opened Wrappers
  import opened Database

  const DefaultPrefix: string := "aes:"
  const DefaultMethod: string := "aesfield.default"
  const MinPassphraseLength: nat := 10

  const PrefixNullMessage: string := "AES Prefix cannot be null."
  const ShortPassphraseMessage: string := "Passphrase cannot be less than 10 chars."
  const LookupMessage: string := "You cannot do lookups on an encrypted field."

  /** The exceptions the field raises: Python's ValueError and ImportError,
      and the field's own EncryptedField. */
  datatype Error =
    | ValueError(message: string)
    | EncryptedField(message: string)
    | ImportError(moduleName: string)

  /** A Python value as the field sees it: `None` or a string. */
  type Value = Option<string>

  /** Python truthiness of a value: neither `None` nor the empty string. */
  predicate Truthy(v: Value) {
    v.Some? && v.value != ""
  }

  /** The `lookup` function of an importable key module. */
  type KeyLookup = Value -> string

  /** The modules `import_module` can find, by dotted name. */
  type Modules = map<string, KeyLookup>

  /** Python's `s.startswith(prefix)`. */
  predicate StartsWith(s: string, prefix: string) {
    |prefix| <= |s| && s[..|prefix|] == prefix
  }

  lemma StartsWithIsSplit(s: string, prefix: string)
    ensures StartsWith(s, prefix) <==> exists tail :: s == prefix + tail
  {
    if StartsWith(s, prefix) {
      assert s == prefix + s[|prefix|..];
    }
  }

  // The format of stored ciphertext.

  /** The stored form of a hexadecimal ciphertext. */
  function Tag(hexCiphertext: string, prefix: string): (tagged: string) {
    prefix + hexCiphertext
  }

  /** A value the read path attempts to decrypt. */
  predicate IsTagged(v: Value, prefix: string) {
    Truthy(v) && StartsWith(v.value, prefix)
  }

  /** The hexadecimal ciphertext of a tagged string. */
  function Strip(s: string, prefix: string): (hexCiphertext: string)
    requires StartsWith(s, prefix)
  {
    s[|prefix|..]
  }

  lemma TagThenStrip(hexCiphertext: string, prefix: string)
    ensures StartsWith(Tag(hexCiphertext, prefix), prefix)
    ensures prefix != "" ==> IsTagged(Some(Tag(hexCiphertext, prefix)), prefix)
    ensures Strip(Tag(hexCiphertext, prefix), prefix) == hexCiphertext
  {
  }

  /**
   * The field's configuration, fixed at construction: the prefix marking
   * ciphertext, the module whose `lookup` resolves keys, and the key
   * identifier handed to that `lookup`.
   */
  datatype AESField = AESField(aesPrefix: string, aesMethod: string, aesKey: Value)
  {
    /** Every field that construction returns has a non-empty prefix. */
    ghost predicate Valid() {
      aesPrefix != ""
    }

    /** Resolves the passphrase through the configured module's `lookup`. */
    function GetAesKey(modules: Modules): (r: Result<string, Error>)
      ensures r.Ok? <==>
        aesMethod in modules && |modules[aesMethod](aesKey)| >= MinPassphraseLength
      ensures r.Ok? ==> r.value == modules[aesMethod](aesKey) && |r.value| >= MinPassphraseLength
      ensures aesMethod !in modules ==> r == Err(ImportError(aesMethod))
      ensures aesMethod in modules && |modules[aesMethod](aesKey)| < MinPassphraseLength ==>
        r == Err(ValueError(ShortPassphraseMessage))
    {
      if aesMethod !in modules then
        Err(ImportError(aesMethod))
      else
        var result := modules[aesMethod](aesKey);
        if |result| < MinPassphraseLength then Err(ValueError(ShortPassphraseMessage))
        else Ok(result)
    }

    /** A lookup value is never prepared: lookups on the field are refused. */
    function GetPrepLookup<T>(lookupType: string, value: T): (r: Result<T, Error>)
      ensures r.Err? && r.error == EncryptedField(LookupMessage)
    {
      Err(EncryptedField(LookupMessage))
    }

    /** The query-compilation entry point for lookups refuses as well. */
    function GetDbPrepLookup<A, K, P>(args: A, kwargs: K): (r: Result<P, Error>)
      ensures r.Err? && r.error == EncryptedField(LookupMessage)
    {
      Err(EncryptedField(LookupMessage))
    }

    // What the write and read hooks compute.

    /** The write hook encrypts only an unprepared, truthy value on MySQL. */
    predicate EncryptsOnWrite(value: Value, conn: Connection, prepared: bool) {
      !prepared && Truthy(value) && conn.IsMySql()
    }

    function PrepareForStorage(value: Value, conn: Connection, prepared: bool, modules: Modules): (r: Result<Value, Error>)
      ensures !EncryptsOnWrite(value, conn, prepared) ==> r == Ok(value)
      ensures r.Err? <==> EncryptsOnWrite(value, conn, prepared) && GetAesKey(modules).Err?
      ensures r.Err? ==> r.error == GetAesKey(modules).error
      ensures r.Ok? && EncryptsOnWrite(value, conn, prepared) ==>
        var key := GetAesKey(modules).value;
        r.value == Some(Tag(conn.server.hex(conn.server.aesEncrypt(value.value, key)), aesPrefix))
      ensures Valid() && r.Ok? && EncryptsOnWrite(value, conn, prepared) ==> IsTagged(r.value, aesPrefix)
    {
      if !EncryptsOnWrite(value, conn, prepared) then
        Ok(value)
      else
        match GetAesKey(modules)
        case Err(e) => Err(e)
        case Ok(key) =>
          var hexCiphertext := conn.server.hex(conn.server.aesEncrypt(value.value, key));
          Ok(Some(Tag(hexCiphertext, aesPrefix)))
    }

    /** The read hook decrypts only a tagged value on MySQL. */
    predicate DecryptsOnRead(value: Value, conn: Connection) {
      IsTagged(value, aesPrefix) && conn.IsMySql()
    }

    function RestoreFromStorage(value: Value, conn: Connection, modules: Modules): (r: Result<Value, Error>)
      ensures !DecryptsOnRead(value, conn) ==> r == Ok(value)
      ensures r.Err? <==> DecryptsOnRead(value, conn) && GetAesKey(modules).Err?
      ensures r.Err? ==> r.error == GetAesKey(modules).error
      ensures r.Ok? && DecryptsOnRead(value, conn) ==>
        var key := GetAesKey(modules).value;
        var plaintext := conn.server.aesDecrypt(conn.server.unhex(Strip(value.value, aesPrefix)), key);
        r.value == if Truthy(plaintext) then plaintext else value
    {
      if !DecryptsOnRead(value, conn) then
        Ok(value)
      else
        match GetAesKey(modules)
        case Err(e) => Err(e)
        case Ok(key) =>
          var plaintext := conn.server.aesDecrypt(conn.server.unhex(Strip(value.value, aesPrefix)), key);
          Ok(if Truthy(plaintext) then plaintext else value)
    }

    // The hooks as the field runs them, through SQL.

    /** `SELECT CONCAT(prefix, HEX(AES_ENCRYPT(value, key)))` when the write
        hook encrypts; the value itself otherwise. */
    method GetDbPrepValue(value: Value, conn: Connection, prepared: bool, modules: Modules)
      returns (r: Result<Value, Error>)
      ensures r == PrepareForStorage(value, conn, prepared, modules)
    {
      var v := value;
      if !prepared && Truthy(v) && conn.engine == MySqlEngine {
        var key :- GetAesKey(modules);
        v := Some(Concat(aesPrefix, conn.server.hex(conn.server.aesEncrypt(v.value, key))));
      }
      return Ok(v);
    }

    /** `SELECT AES_DECRYPT(UNHEX(SUBSTRING(value, len(prefix) + 1)), key)`
        for a tagged value on MySQL, keeping the value when that is empty. */
    method ToPython(value: Value, conn: Connection, modules: Modules) returns (r: Result<Value, Error>)
      ensures r == RestoreFromStorage(value, conn, modules)
    {
      if !Truthy(value) || !StartsWith(value.value, aesPrefix) || conn.engine != MySqlEngine {
        return Ok(value);
      }
      var key :- GetAesKey(modules);
      var res := conn.server.aesDecrypt(conn.server.unhex(Substring(value.value, |aesPrefix| + 1)), key);
      var v := value;
      if Truthy(res) {
        v := res;
      }
      return Ok(v);
    }

    /** The read hook Django calls; it ignores its `connection` argument and
        reads through the current connection, exactly as ToPython does. */
    method FromDbValue<X, Y>(value: Value, expression: X, connection: Connection, context: Y,
                             current: Connection, modules: Modules)
      returns (r: Result<Value, Error>)
      ensures r == RestoreFromStorage(value, current, modules)
    {
      r := ToPython(value, current, modules);
    }
  }

  /** `kwargs.pop(key, default)`, as far as the popped value goes. */
  function Pop(kwargs: map<string, Value>, key: string, default: Value): (popped: Value) {
    if key in kwargs then kwargs[key] else default
  }

  /** `AESField.__init__`: takes the prefix and key from the keyword
      arguments and the key module from the settings. */
  method Init(kwargs: map<string, Value>, settings: map<string, string>) returns (r: Result<AESField, Error>)
    ensures r.Err? <==> "aes_prefix" in kwargs && !Truthy(kwargs["aes_prefix"])
    ensures r.Err? ==> r.error == ValueError(PrefixNullMessage)
    ensures r.Ok? ==> r.value.Valid()
    ensures r.Ok? ==> Some(r.value.aesPrefix) == Pop(kwargs, "aes_prefix", Some(DefaultPrefix))
    ensures r.Ok? ==> r.value.aesKey == Pop(kwargs, "aes_key", Some(""))
    ensures r.Ok? ==>
      r.value.aesMethod == (if "AES_METHOD" in settings then settings["AES_METHOD"] else DefaultMethod)
  {
    var aesPrefix := Pop(kwargs, "aes_prefix", Some(DefaultPrefix));
    if !Truthy(aesPrefix) {
      return Err(ValueError(PrefixNullMessage));
    }
    var aesMethod := if "AES_METHOD" in settings then settings["AES_METHOD"] else DefaultMethod;
    var aesKey := Pop(kwargs, "aes_key", Some(""));
    return Ok(AESField(aesPrefix.value, aesMethod, aesKey));
  }
}
