/** The stored form of a password and its check. The base64 codec and the text encoding are parameters. */
module PasswordHash {
  import opened Wrappers
  import opened Text
  import opened Password

  /** What the program takes from its libraries: text as bytes, the keyed hash, base64. */
  datatype Library = Library(bytes: string -> Bytes, prf: Function, encode: Bytes -> string, decode: string -> Option<Bytes>)

  /** The base64 round trip, and that its alphabet has no separator. */
  ghost predicate Lawful(lib: Library) {
    && HashSized(lib.prf)
    && (forall b :: lib.decode(lib.encode(b)) == Some(b))
    && (forall b :: Without(lib.encode(b), '$'))
  }

  // ---- Decimal numbers -------------------------------------------------------------------------

  /** A 64-bit decimal number with an optional sign. */
  function Atoi(s: string): Option<int> {
    var signed := s != "" && (s[0] == '-' || s[0] == '+');
    var body := if signed then s[1..] else s;
    var v := Digits(body);
    if body == "" || v.None? then None
    else
      var n := if signed && s[0] == '-' then 0 - v.value as int else v.value;
      if -0x8000_0000_0000_0000 <= n <= 0x7FFF_FFFF_FFFF_FFFF then Some(n) else None
  }

  lemma AtoiItoa(n: nat)
    requires n <= 0x7FFF_FFFF_FFFF_FFFF
    ensures Atoi(Itoa(n)) == Some(n)
  {
    hide DigitOf;
    DigitsItoa(n);
  }

  // ---- Storing and checking --------------------------------------------------------------------

  /** The salt is what the random source gave, if it gave any. */
  method HashPassword(lib: Library, password: string, random: Option<Bytes>) returns (r: Result<string, string>)
    requires Lawful(lib)
    ensures r.Ok? == (TrimSpace(password) != "" && random.Some?)
    ensures r.Ok? ==>
      var key := Derived(lib.prf, lib.bytes(password), random.value, 120000, 32);
      && key.Ok?
      && r.value == "yesnas_pbkdf2_sha256" + "$" + Itoa(120000) + "$" + lib.encode(random.value) + "$" + lib.encode(key.value)
  {
    hide TrimSpace, Itoa;
    if TrimSpace(password) == "" {
      return Err("password is required");
    }
    if random.None? {
      return Err("generate password salt");
    }
    var salt := random.value;
    var key := Pbkdf2SHA256(lib.prf, lib.bytes(password), salt, ITERATIONS, KEY_BYTES);
    StoredIs(lib, salt, key);
    return Ok(Join([PREFIX, Itoa(ITERATIONS), lib.encode(salt), lib.encode(key)], '$'));
  }

  function Stored(lib: Library, salt: Bytes, key: Bytes): string {
    PREFIX + "$" + Itoa(ITERATIONS) + "$" + lib.encode(salt) + "$" + lib.encode(key)
  }

  lemma StoredIs(lib: Library, salt: Bytes, key: Bytes)
    ensures Join([PREFIX, Itoa(ITERATIONS), lib.encode(salt), lib.encode(key)], '$') == Stored(lib, salt, key)
  {
    hide Itoa, Join;
    JoinFour(PREFIX, Itoa(ITERATIONS), lib.encode(salt), lib.encode(key));
  }

  /** What the check accepts, in full. */
  ghost predicate Accepts(lib: Library, password: string, encoded: string)
    requires Lawful(lib)
  {
    var parts := Split(encoded, '$');
    && |parts| == 4 && parts[0] == PREFIX
    && var iterations := Atoi(parts[1]);
    && iterations.Some? && iterations.value > 0
    && var salt, expected := lib.decode(parts[2]), lib.decode(parts[3]);
    && salt.Some? && expected.Some?
    && Key(lib, password, salt.value, iterations.value, |expected.value|) == expected.value
  }

  /** The key the program derives: the standard's, wherever the standard defines one. */
  ghost function Key(lib: Library, password: string, salt: Bytes, iterations: nat, keyLen: nat): (r: Bytes)
    requires Lawful(lib) && iterations > 0
    ensures
      var d := Derived(lib.prf, lib.bytes(password), salt, iterations, keyLen);
      d.Ok? ==> d == Ok(r)
  {
    var p := lib.bytes(password);
    LastBlock(lib.prf, p, salt, iterations, keyLen);
    Blocks(lib.prf, p, salt, iterations, (keyLen + HASH_LEN - 1) / HASH_LEN)[..keyLen]
  }

  method VerifyPassword(lib: Library, password: string, encoded: string) returns (r: bool)
    requires Lawful(lib)
    ensures r == Accepts(lib, password, encoded)
  {
    hide Split, Atoi, Derived, Blocks;
    var parts := Split(encoded, '$');
    if |parts| != 4 || parts[0] != PREFIX {
      return false;
    }
    var iterations := Atoi(parts[1]);
    if iterations.None? || iterations.value <= 0 {
      return false;
    }
    var salt := lib.decode(parts[2]);
    if salt.None? {
      return false;
    }
    var expected := lib.decode(parts[3]);
    if expected.None? {
      return false;
    }
    var actual := Pbkdf2SHA256(lib.prf, lib.bytes(password), salt.value, iterations.value, |expected.value|);
    r := actual == expected.value;
  }

  lemma StoredParts(lib: Library, salt: Bytes, key: Bytes)
    requires Lawful(lib)
    ensures Split(Stored(lib, salt, key), '$') == [PREFIX, Itoa(ITERATIONS), lib.encode(salt), lib.encode(key)]
  {
    hide Split, Join, Stored, Itoa;
    var parts := [PREFIX, Itoa(ITERATIONS), lib.encode(salt), lib.encode(key)];
    DigitsItoa(ITERATIONS);
    assert Without(PREFIX, '$');
    forall i | 0 <= i < |parts| ensures Without(parts[i], '$') {
      assert i == 0 || i == 1 || i == 2 || i == 3;
    }
    SplitJoin(parts, '$');
    StoredIs(lib, salt, key);
  }

  /** A stored password accepts a password exactly when both derive the same key, so always the one it was
      stored for. */
  lemma StoredAccepts(lib: Library, password: string, salt: Bytes, other: string)
    requires Lawful(lib)
    ensures
      var key := Derived(lib.prf, lib.bytes(password), salt, ITERATIONS, KEY_BYTES);
      && key.Ok?
      && Accepts(lib, password, Stored(lib, salt, key.value))
      && (Accepts(lib, other, Stored(lib, salt, key.value)) <==>
            Derived(lib.prf, lib.bytes(other), salt, ITERATIONS, KEY_BYTES) == key)
  {
    hide Split, Itoa, Atoi, Stored, Block;
    var key := Derived(lib.prf, lib.bytes(password), salt, ITERATIONS, KEY_BYTES);
    StoredParts(lib, salt, key.value);
    AtoiItoa(ITERATIONS);
    var mine, theirs := Key(lib, password, salt, ITERATIONS, KEY_BYTES), Key(lib, other, salt, ITERATIONS, KEY_BYTES);
    hide Derived, Blocks, Key;
  }

  /** Four parts between dollar signs: the scheme, a positive count, a salt, and the key that the password,
      the salt and the count give. */
  ghost predicate FormOk(lib: Library, password: string, encoded: string, count: string, salt: string, key: string)
    requires Lawful(lib)
  {
    && encoded == "yesnas_pbkdf2_sha256" + "$" + count + "$" + salt + "$" + key
    && Without(count, '$') && Without(salt, '$') && Without(key, '$')
    && var n, s, k := Atoi(count), lib.decode(salt), lib.decode(key);
    && n.Some? && n.value > 0 && s.Some? && k.Some? && Key(lib, password, s.value, n.value, |k.value|) == k.value
  }

  /** The check accepts exactly the texts of that form, whoever wrote them. */
  lemma AcceptedForm(lib: Library, password: string, encoded: string)
    requires Lawful(lib)
    ensures Accepts(lib, password, encoded) <==> exists count, salt, key :: FormOk(lib, password, encoded, count, salt, key)
  {
    hide Split, Join, Atoi, Key;
    var parts := Split(encoded, '$');
    JoinSplit(encoded, '$');
    if Accepts(lib, password, encoded) {
      JoinFour(parts[0], parts[1], parts[2], parts[3]);
      assert parts == [parts[0], parts[1], parts[2], parts[3]];
      assert FormOk(lib, password, encoded, parts[1], parts[2], parts[3]);
    }
    if count, salt, key :| FormOk(lib, password, encoded, count, salt, key) {
      SplitFour(PREFIX, count, salt, key);
    }
  }

  lemma JoinFour(a: string, b: string, c: string, d: string)
    ensures Join([a, b, c, d], '$') == a + "$" + b + "$" + c + "$" + d
  {
    var parts := [a, b, c, d];
    assert parts[1..][1..][1..] == [d];
    assert Join(parts[1..][1..], '$') == c + ['$'] + d;
    assert Join(parts[1..], '$') == b + ['$'] + Join(parts[1..][1..], '$');
  }

  lemma SplitFour(a: string, b: string, c: string, d: string)
    requires Without(b, '$') && Without(c, '$') && Without(d, '$') && a == PREFIX
    ensures Split(a + "$" + b + "$" + c + "$" + d, '$') == [a, b, c, d]
  {
    hide Split, Join;
    var parts := [a, b, c, d];
    assert Without(PREFIX, '$');
    forall i | 0 <= i < |parts| ensures Without(parts[i], '$') { assert i == 0 || i == 1 || i == 2 || i == 3; }
    SplitJoin(parts, '$');
    JoinFour(a, b, c, d);
  }
}
