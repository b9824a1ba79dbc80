/**
 * Properties that relate the write hook to the read hook. The field's code
 * promises no round trip by itself: it rests on MySQL decrypting its own
 * ciphertext, stated as the hypothesis Server.DecryptsOwnCiphertext.
 */
module AesFieldProperties {
  import opened Wrappers
  import opened Database
  import opened AesField

  /** Reading back what the write hook stored gives the plaintext again. */
  lemma RoundTrip(f: AESField, plaintext: string, conn: Connection, modules: Modules)
    requires f.Valid() && plaintext != "" && conn.IsMySql()
    requires f.GetAesKey(modules).Ok?
    requires conn.server.DecryptsOwnCiphertext(plaintext, f.GetAesKey(modules).value)
    ensures f.PrepareForStorage(Some(plaintext), conn, false, modules).Ok?
    ensures f.RestoreFromStorage(f.PrepareForStorage(Some(plaintext), conn, false, modules).value, conn, modules)
            == Ok(Some(plaintext))
  {
  }

  /** The write hook does not look at the prefix: a value that already
      carries it is encrypted once more unless the caller says it is
      prepared. */
  lemma TaggedValueEncryptedAgain(f: AESField, value: Value, conn: Connection, modules: Modules)
    requires IsTagged(value, f.aesPrefix) && conn.IsMySql()
    requires f.GetAesKey(modules).Ok?
    ensures f.PrepareForStorage(value, conn, true, modules) == Ok(value)
    ensures var key := f.GetAesKey(modules).value;
      f.PrepareForStorage(value, conn, false, modules) ==
      Ok(Some(Tag(conn.server.hex(conn.server.aesEncrypt(value.value, key)), f.aesPrefix)))
  {
  }

  /** A value written twice needs two reads: one read peels off only the
      outer encryption and gives back what the first write stored. That is
      not the plaintext when, as with MySQL's AES, the hex ciphertext is
      longer than the plaintext. */
  lemma DoubleWriteReadsBackOnce(f: AESField, plaintext: string, conn: Connection, modules: Modules)
    requires f.Valid() && plaintext != "" && conn.IsMySql()
    requires f.GetAesKey(modules).Ok?
    requires var key := f.GetAesKey(modules).value;
      |conn.server.hex(conn.server.aesEncrypt(plaintext, key))| > |plaintext|
    requires var once := f.PrepareForStorage(Some(plaintext), conn, false, modules);
      once.Ok? && once.value.Some? &&
      conn.server.DecryptsOwnCiphertext(once.value.value, f.GetAesKey(modules).value)
    ensures var once := f.PrepareForStorage(Some(plaintext), conn, false, modules);
      var twice := f.PrepareForStorage(once.value, conn, false, modules);
      twice.Ok? && f.RestoreFromStorage(twice.value, conn, modules) == once
    ensures f.PrepareForStorage(Some(plaintext), conn, false, modules) != Ok(Some(plaintext))
  {
  }
}
