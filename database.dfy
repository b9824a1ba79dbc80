/**
 * The database side of the field: the Django connection (only its engine name
 * matters to the field) and the MySQL functions the field's queries call.
 * The cipher and the hexadecimal encoding run inside MySQL; they are left
 * uninterpreted, as fields of a Server record that every caller supplies.
 */
module Database {
  import opened Wrappers

  type Bytes = seq<bv8>

  /** The value of `settings_dict['ENGINE']` for which the field encrypts. */
  const MySqlEngine: string := "django.db.backends.mysql"

  /**
   * MySQL's AES_ENCRYPT, AES_DECRYPT, HEX and UNHEX. AES_DECRYPT yields
   * `None` for SQL NULL, which MySQL returns when the ciphertext does not
   * decrypt under the key.
   */
  datatype Server = Server(
    aesEncrypt: (string, string) -> Bytes,
    aesDecrypt: (Bytes, string) -> Option<string>,
    hex: Bytes -> string,
    unhex: string -> Bytes)
  {
    /** What MySQL promises of its own primitives: the decryption of the
        unhexed hex of a ciphertext gives back the plaintext. */
    predicate DecryptsOwnCiphertext(plaintext: string, key: string) {
      aesDecrypt(unhex(hex(aesEncrypt(plaintext, key))), key) == Some(plaintext)
    }
  }

  /** A database connection: its configured engine and the server it reaches. */
  datatype Connection = Connection(engine: string, server: Server)
  {
    predicate IsMySql() {
      engine == MySqlEngine
    }
  }

  /** SQL `CONCAT(a, b)` of two non-NULL strings. */
  function Concat(a: string, b: string): (r: string)
    ensures |r| == |a| + |b|
    ensures r[..|a|] == a && r[|a|..] == b
  {
    a + b
  }

  /**
   * SQL `SUBSTRING(s, pos)`: positions count from 1; a negative position
   * counts back from the end; position 0, or one beyond either end, gives
   * the empty string.
   */
  function Substring(s: string, pos: int): (r: string)
    ensures |r| <= |s| && r == s[|s| - |r|..]
    ensures 0 < pos <= |s| + 1 ==> |r| == |s| - (pos - 1)
  {
    if pos > 0 then
      if pos <= |s| then s[pos - 1..] else ""
    else if pos < 0 then
      if -pos <= |s| then s[|s| + pos..] else ""
    else
      ""
  }

  /** `SUBSTRING(p + tail, len(p) + 1)` is exactly `tail`. */
  lemma SubstringAfter(p: string, tail: string)
    ensures Substring(p + tail, |p| + 1) == tail
  {
  }
}
