# AESField, modelled in Dafny

`AESField` is a Django character column that keeps its values encrypted at
rest. On write (`get_db_prep_value`) it asks MySQL for
`CONCAT(prefix, HEX(AES_ENCRYPT(value, key)))`, so stored ciphertext carries a
recognisable prefix (default `"aes:"`). On read (`to_python`, and
`from_db_value`, which delegates to it) a value that starts with the prefix is
passed to `AES_DECRYPT(UNHEX(SUBSTRING(value, len(prefix) + 1)), key)`. An
empty or NULL decryption leaves the stored value as it is. The passphrase comes from the `lookup`
function of a configurable module and must be at least 10 characters long.
Lookups (filters) on the column are always refused with `EncryptedField`.

The model has three modules:

- `Wrappers` (wrappers.dfy): `Option` for Python's `None`-or-value and
  `Result` for an operation that may raise.
- `Database` (database.dfy): the connection, reduced to its engine name and
  the server it reaches. The MySQL primitives `AES_ENCRYPT`, `AES_DECRYPT`,
  `HEX` and `UNHEX` are uninterpreted fields of a `Server` record. `CONCAT` and
  the 1-based `SUBSTRING` are given their SQL meaning.
- `AesField` (field.dfy): the field as an immutable record
  `AESField(aesPrefix, aesMethod, aesKey)`, since its attributes are never
  changed after `__init__`. The file also holds the stored-value format
  (`Tag`, `IsTagged`, `Strip`) and the key resolution. `PrepareForStorage` and
  `RestoreFromStorage` state what the hooks compute, in terms of that format.
  The methods `GetDbPrepValue`, `ToPython` and `FromDbValue` run the hooks the
  way the source does, through the SQL forms. Each is proved equal to its
  specification function.
- `AesFieldProperties` (properties.dfy): lemmas relating writes to reads.

Python values are `Option<string>`: `None` or a string. Truthiness means a
string that is not empty. The modules `import_module` can load are a map
from dotted name to `lookup` function, passed to every call that resolves a
key. The Django settings are a map from attribute name to string.

Both configuration failures (an empty prefix at aesfield/field.py:18-19, a
short passphrase at aesfield/field.py:26-27) raise Python's `ValueError`;
there is no dedicated configuration error.

## Model

| member | source | states |
|---|---|---|
| AesField.Init | aesfield/field.py:15-21 | construction fails with ValueError("AES Prefix cannot be null.") exactly when an `aes_prefix` keyword is given and is falsy; otherwise the field has a non-empty prefix (the keyword, or "aes:"), the key keyword or "", and `settings.AES_METHOD` or "aesfield.default" |
| AesField.AESField.GetAesKey | aesfield/field.py:24-28 | succeeds exactly when the configured module exists and its `lookup` of the key identifier has at least 10 characters, and then returns that passphrase; otherwise ImportError for a missing module or ValueError("Passphrase cannot be less than 10 chars.") |
| AesField.AESField.GetPrepLookup | aesfield/field.py:30-31 | always raises EncryptedField("You cannot do lookups on an encrypted field."), whatever the lookup type and value |
| AesField.AESField.GetDbPrepLookup | aesfield/field.py:33-34 | always raises EncryptedField with the same message, whatever the positional and keyword arguments |
| AesField.AESField.PrepareForStorage | aesfield/field.py:36-43 | a prepared, falsy or non-MySQL value is returned unchanged and no key error can arise; otherwise the result fails exactly when key resolution fails, with its error, and is the prefix followed by HEX(AES_ENCRYPT(value, key)), a tagged value |
| AesField.AESField.GetDbPrepValue | aesfield/field.py:36-43 | the SQL write path (`CONCAT` of prefix and hex ciphertext, gated on `prepared`, truthiness and the MySQL engine) computes exactly PrepareForStorage |
| AesField.AESField.RestoreFromStorage | aesfield/field.py:48-58 | a falsy, untagged or non-MySQL value is returned unchanged; otherwise the result fails exactly when key resolution fails, and is the decryption of the unhexed text after the prefix when that is truthy, else the original tagged value |
| AesField.AESField.ToPython | aesfield/field.py:48-58 | the SQL read path (`SUBSTRING(value, len(prefix) + 1)`, `UNHEX`, `AES_DECRYPT`, fail-soft on an empty result) computes exactly RestoreFromStorage |
| AesField.AESField.FromDbValue | aesfield/field.py:45-46 | gives what ToPython gives on the current connection, whatever its expression, connection and context arguments |
| AesField.StartsWithIsSplit | aesfield/field.py:49 | `value.startswith(prefix)` holds exactly when the value is the prefix followed by some tail |
| AesField.TagThenStrip | aesfield/field.py:40-42 | a prefixed ciphertext starts with the prefix, is tagged when the prefix is non-empty, and stripping the prefix gives the ciphertext back |
| Database.Concat | aesfield/field.py:40 | `CONCAT(a, b)` begins with `a`, ends with `b`, and has the summed length |
| Database.Substring | aesfield/field.py:53-54 | `SUBSTRING(s, pos)` is a suffix of `s`, and for a position from 1 to len(s)+1 it drops exactly pos-1 characters |
| Database.SubstringAfter | aesfield/field.py:53-54 | `SUBSTRING(prefix + tail, len(prefix) + 1)` is exactly the tail, so the 1-based position strips the prefix |
| AesFieldProperties.RoundTrip | aesfield/field.py:36-58 | on MySQL with a valid key, reading back what the write hook stored for a non-empty plaintext gives that plaintext, provided MySQL decrypts its own ciphertext |
| AesFieldProperties.TaggedValueEncryptedAgain | aesfield/field.py:37-42 | the write hook does not inspect the prefix: an already tagged value is encrypted again unless `prepared` is set, and is left unchanged when it is |
| AesFieldProperties.DoubleWriteReadsBackOnce | aesfield/field.py:36-58 | a plaintext written twice reads back, in one read, as the once-written tagged value; when the hex ciphertext is longer than the plaintext (as MySQL's AES output is), that value differs from the plaintext |

## Left out

- The Django `CharField` base class, the `description` attribute, the
  `*args`/`**kwargs` passed on to it, and the unimplemented check of the
  field length (the TODO at aesfield/field.py:16): framework glue.
- The dynamic `import_module(...)` is a map of loadable modules passed in by
  the caller. A module that loads but has no `lookup` (an AttributeError in
  Python) is not distinguished from a missing one.
- `lookup` is taken to return a string. A key identifier or value of any other
  Python type (say an integer) is not modelled.
- The cursor round trips (`connection.cursor()`, `execute`, `fetchone`) are
  database I/O. Their effect is the uninterpreted primitives of
  `Database.Server`. The cipher and the byte-level hexadecimal encoding are
  not modelled. SQL NULL arising inside the expressions is not modelled
  either (for instance `UNHEX` of text that is not hex); only
  `AES_DECRYPT` may yield NULL.
- `to_python` reads the engine from Django's global connection, while
  `get_db_prep_value` uses its argument. Both are an explicit `Connection`
  argument here; `FromDbValue` takes the argument Django passes and ignores
  it, as the source does.
- Backend errors raised by the database round trip are not modelled.
- Strings are sequences of characters on both sides: Python's `len` of the
  prefix and of the passphrase and MySQL's `SUBSTRING` position are taken to
  count the same units. A prefix whose byte length differs from its character
  length (a non-ASCII byte string under Python 2) is not modelled.
- `AES_DECRYPT` returns a binary string, which a Python 3 driver hands back as
  `bytes`. The model takes its result to be the same text that was encrypted,
  so `RoundTrip` does not capture a `bytes`-versus-`str` difference.
