/**
 The encrypted payload of a connection: a random data key encrypts the payload, the master key wraps the
 data key, and both are bound to the record they belong to.  The AEAD, base64url and JSON are
 parameters, known by their interfaces only (RFC 5116 sections 2.1 and 2.2, RFC 4648 section 5).
 */
module Vault {
  import opened Basics

  const DOT: char := '.'
  const COLON: char := ':'

  datatype Payload<J> = Payload(settings: J, secrets: J)

  datatype Primitives<!J> = Primitives(
    encrypt: (Bytes, Bytes, Bytes, string) -> Bytes,          // key, nonce, plaintext, additional data
    decrypt: (Bytes, Bytes, Bytes, string) -> Option<Bytes>,  // key, nonce, ciphertext, additional data
    b64e: Bytes -> string,
    b64d: string -> Option<Bytes>,
    dumps: Payload<J> -> Bytes,
    loads: Bytes -> Option<Payload<J>>)

  /** What is assumed of them: they undo each other, and base64url text has no dot. */
  ghost predicate Sound<J(!new)>(c: Primitives<J>) {
    && (forall key, nonce, plain, aad :: c.decrypt(key, nonce, c.encrypt(key, nonce, plain, aad), aad) == Some(plain))
    && (forall b :: c.b64d(c.b64e(b)) == Some(b) && DOT !in c.b64e(b))
    && (forall p :: c.loads(c.dumps(p)) == Some(p))
  }

  /** Decryption fails under any other additional data. */
  ghost predicate Authentic<J(!new)>(c: Primitives<J>) {
    forall key, nonce, plain, aad, aad' ::
      aad != aad' ==> c.decrypt(key, nonce, c.encrypt(key, nonce, plain, aad), aad') == None
  }

  /** What the additional data is made of. */
  datatype Context = Context(scope: string, kind: string, id: string) {
    predicate Plain() { COLON !in kind && COLON !in id }
  }

  function PayloadAad(x: Context): string { "vault:payload:" + x.scope + [COLON] + x.kind + [COLON] + x.id }

  function DekAad(x: Context): string { "vault:dek:" + x.scope + [COLON] + x.kind }

  /** The stored columns. */
  datatype Envelope = Envelope(wrappedDek: string, nonce: string, ciphertext: string)

  /** The random bytes of one set_payload. */
  datatype Draw = Draw(dek: Bytes, dekNonce: Bytes, payloadNonce: Bytes)

  function WrapDek<J>(c: Primitives<J>, kek: Bytes, dek: Bytes, nonce: Bytes, aad: string): string {
    c.b64e(nonce) + [DOT] + c.b64e(c.encrypt(kek, nonce, dek, aad))
  }

  /** wrapped.split(".", 1) into two pieces. */
  function SplitDot(s: string): Option<(string, string)> {
    if s == "" then None
    else if s[0] == DOT then Some(("", s[1..]))
    else
      match SplitDot(s[1..])
      case None => None
      case Some((a, b)) => Some(([s[0]] + a, b))
  }

  function UnwrapDek<J>(c: Primitives<J>, kek: Bytes, wrapped: string, aad: string): Option<Bytes> {
    match SplitDot(wrapped)
    case None => None
    case Some((nonce64, ct64)) =>
      match (c.b64d(nonce64), c.b64d(ct64))
      case (Some(nonce), Some(ct)) => c.decrypt(kek, nonce, ct, aad)
      case _ => None
  }

  /** set_payload */
  function Seal<J>(c: Primitives<J>, kek: Bytes, x: Context, p: Payload<J>, d: Draw): Envelope {
    Envelope(WrapDek(c, kek, d.dek, d.dekNonce, DekAad(x)),
             c.b64e(d.payloadNonce),
             c.b64e(c.encrypt(d.dek, d.payloadNonce, c.dumps(p), PayloadAad(x))))
  }

  /** get_payload; None where it raises. */
  function Open<J>(c: Primitives<J>, kek: Bytes, x: Context, e: Envelope): Option<Payload<J>> {
    match UnwrapDek(c, kek, e.wrappedDek, DekAad(x))
    case None => None
    case Some(dek) =>
      match (c.b64d(e.nonce), c.b64d(e.ciphertext))
      case (Some(nonce), Some(ct)) =>
        (match c.decrypt(dek, nonce, ct, PayloadAad(x))
         case None => None
         case Some(plain) => c.loads(plain))
      case _ => None
  }

  /* ------------------------------------ wrapping ------------------------------------ */

  lemma {:induction false} SplitsAtFirstDot(a: string, b: string)
    requires DOT !in a
    ensures SplitDot(a + [DOT] + b) == Some((a, b))
  {
    var s := a + [DOT] + b;
    if a == "" {
      assert s[1..] == b;
    } else {
      assert s[1..] == a[1..] + [DOT] + b;
      SplitsAtFirstDot(a[1..], b);
      assert a == [a[0]] + a[1..];
    }
  }

  lemma UnwrapWrapped<J(!new)>(c: Primitives<J>, kek: Bytes, dek: Bytes, nonce: Bytes, aad: string, aad': string)
    requires Sound(c)
    ensures aad' == aad ==> UnwrapDek(c, kek, WrapDek(c, kek, dek, nonce, aad), aad') == Some(dek)
    ensures aad' != aad && Authentic(c) ==> UnwrapDek(c, kek, WrapDek(c, kek, dek, nonce, aad), aad') == None
  {
    var ct := c.encrypt(kek, nonce, dek, aad);
    assert c.b64d(c.b64e(nonce)) == Some(nonce) && c.b64d(c.b64e(ct)) == Some(ct);
    SplitsAtFirstDot(c.b64e(nonce), c.b64e(ct));
  }

  /* -------------------------------- the additional data -------------------------------- */

  /** What stands behind the last colon. */
  function AfterColon(s: string): string {
    if s == "" || s[|s| - 1] == COLON then "" else AfterColon(s[..|s| - 1]) + [s[|s| - 1]]
  }

  lemma {:induction false} AfterColonIs(a: string, b: string)
    requires COLON !in b
    ensures AfterColon(a + [COLON] + b) == b
  {
    if b != "" {
      var s, init := a + [COLON] + b, b[..|b| - 1];
      assert s[..|s| - 1] == a + [COLON] + init && b == init + [b[|b| - 1]];
      AfterColonIs(a, init);
    }
  }

  /** The last colon separates, whatever stands before it. */
  lemma RightSplit(a: string, b: string, a': string, b': string)
    requires a + [COLON] + b == a' + [COLON] + b' && COLON !in b && COLON !in b'
    ensures a == a' && b == b'
  {
    AfterColonIs(a, b);
    AfterColonIs(a', b');
    assert (a + [COLON] + b)[..|a|] == a && (a' + [COLON] + b')[..|a'|] == a';
  }

  lemma DropFront(front: string, a: string, b: string)
    requires front + a == front + b
    ensures a == b
  {
    assert (front + a)[|front|..] == a && (front + b)[|front|..] == b;
  }

  /** Scopes contain colons, but the additional data still determines scope, kind and id. */
  lemma PayloadAadInjective(x: Context, y: Context)
    requires x.Plain() && y.Plain() && PayloadAad(x) == PayloadAad(y)
    ensures x == y
  {
    RightSplit("vault:payload:" + x.scope + [COLON] + x.kind, x.id,
               "vault:payload:" + y.scope + [COLON] + y.kind, y.id);
    RightSplit("vault:payload:" + x.scope, x.kind, "vault:payload:" + y.scope, y.kind);
    DropFront("vault:payload:", x.scope, y.scope);
  }

  lemma DekAadInjective(x: Context, y: Context)
    requires x.Plain() && y.Plain() && DekAad(x) == DekAad(y)
    ensures x.scope == y.scope && x.kind == y.kind
  {
    RightSplit("vault:dek:" + x.scope, x.kind, "vault:dek:" + y.scope, y.kind);
    DropFront("vault:dek:", x.scope, y.scope);
  }

  /** The two forms never coincide: no key blob passes for a payload. */
  lemma AadFormsDiffer(x: Context, y: Context)
    ensures PayloadAad(x) != DekAad(y)
  {
    assert PayloadAad(x)[6] == "vault:payload:"[6] == 'p';
    assert DekAad(y)[6] == "vault:dek:"[6] == 'd';
  }

  /** What stands before the last colon. */
  function BeforeColon(s: string): string
    requires COLON in s
  {
    if s[|s| - 1] == COLON then s[..|s| - 1] else BeforeColon(s[..|s| - 1])
  }

  lemma {:induction false} ColonSplits(s: string)
    requires COLON in s
    ensures s == BeforeColon(s) + [COLON] + AfterColon(s) && COLON !in AfterColon(s)
  {
    var init := s[..|s| - 1];
    assert s == init + [s[|s| - 1]];
    if s[|s| - 1] == COLON {
      assert s == init + [COLON] + "";
    } else {
      ColonSplits(init);
      assert AfterColon(s) == AfterColon(init) + [s[|s| - 1]];
    }
  }

  /** No other record with a colon-free kind shares the key's additional data but for scope and kind. */
  ghost predicate Determines(x: Context) {
    forall y: Context | COLON !in y.kind && DekAad(y) == DekAad(x) :: y.scope == x.scope && y.kind == x.kind
  }

  /** Why kinds must be free of colons: among records whose kinds are, the key's additional data
      determines scope and kind exactly if the record's own kind is; otherwise a longer scope with a
      shorter kind has the same. */
  lemma DekAadDeterminesExactly(x: Context)
    ensures Determines(x) <==> COLON !in x.kind
  {
    if COLON in x.kind {
      ColonSplits(x.kind);
      var y := Context(x.scope + [COLON] + BeforeColon(x.kind), AfterColon(x.kind), "");
      assert DekAad(y) == DekAad(x);
      assert y.kind != x.kind;
    } else {
      forall y: Context | COLON !in y.kind && DekAad(y) == DekAad(x) ensures y.scope == x.scope && y.kind == x.kind {
        RightSplit("vault:dek:" + x.scope, x.kind, "vault:dek:" + y.scope, y.kind);
        DropFront("vault:dek:", x.scope, y.scope);
      }
    }
  }

  /* ------------------------------------ the payload ------------------------------------ */

  /** Opening what was sealed: the record it was sealed for gets the payload back, and a record of
      another scope, kind or id gets nothing. */
  lemma OpenSealed<J(!new)>(c: Primitives<J>, kek: Bytes, x: Context, y: Context, p: Payload<J>, d: Draw)
    requires Sound(c) && x.Plain() && y.Plain()
    ensures x == y ==> Open(c, kek, y, Seal(c, kek, x, p, d)) == Some(p)
    ensures x != y && Authentic(c) ==> Open(c, kek, y, Seal(c, kek, x, p, d)) == None
  {
    UnwrapWrapped(c, kek, d.dek, d.dekNonce, DekAad(x), DekAad(y));
    var ct := c.encrypt(d.dek, d.payloadNonce, c.dumps(p), PayloadAad(x));
    assert c.b64d(c.b64e(d.payloadNonce)) == Some(d.payloadNonce) && c.b64d(c.b64e(ct)) == Some(ct);
    if PayloadAad(x) == PayloadAad(y) { PayloadAadInjective(x, y); }
  }

  /** The columns hold the drawn data key, wrapped under the master key with the drawn nonce and bound to scope
      and kind, and the payload, encrypted under that data key with the other nonce and bound to the record. */
  ghost predicate SealedWith<J(!new)>(c: Primitives<J>, kek: Bytes, x: Context, e: Envelope, p: Payload<J>, d: Draw) {
    && UnwrapDek(c, kek, e.wrappedDek, DekAad(x)) == Some(d.dek)
    && (exists rest :: SplitDot(e.wrappedDek) == Some((c.b64e(d.dekNonce), rest)))
    && c.b64d(e.nonce) == Some(d.payloadNonce)
    && exists ct :: c.b64d(e.ciphertext) == Some(ct)
                    && c.decrypt(d.dek, d.payloadNonce, ct, PayloadAad(x)) == Some(c.dumps(p))
  }

  lemma SealedWithItsDraw<J(!new)>(c: Primitives<J>, kek: Bytes, x: Context, p: Payload<J>, d: Draw)
    requires Sound(c)
    ensures SealedWith(c, kek, x, Seal(c, kek, x, p, d), p, d)
  {
    var e := Seal(c, kek, x, p, d);
    UnwrapWrapped(c, kek, d.dek, d.dekNonce, DekAad(x), DekAad(x));
    SplitsAtFirstDot(c.b64e(d.dekNonce), c.b64e(c.encrypt(kek, d.dekNonce, d.dek, DekAad(x))));
    assert c.b64d(e.ciphertext) == Some(c.encrypt(d.dek, d.payloadNonce, c.dumps(p), PayloadAad(x)));
  }

  /** New keys and nonces give new columns: whoever draws differently stores a different envelope. */
  lemma SealedApart<J(!new)>(c: Primitives<J>, kek: Bytes, x: Context, p: Payload<J>, d: Draw, d': Draw)
    requires Sound(c)
    ensures Seal(c, kek, x, p, d) == Seal(c, kek, x, p, d') <==> d == d'
  {
    var e, e' := Seal(c, kek, x, p, d), Seal(c, kek, x, p, d');
    SealedWithItsDraw(c, kek, x, p, d);
    SealedWithItsDraw(c, kek, x, p, d');
    if e == e' {
      assert c.b64e(d.dekNonce) == c.b64e(d'.dekNonce);
      assert c.b64d(c.b64e(d.dekNonce)) == Some(d.dekNonce) && c.b64d(c.b64e(d'.dekNonce)) == Some(d'.dekNonce);
    }
  }

  class Connection<!J(!new)> {
    const primitives: Primitives<J>
    const kek: Bytes
    const context: Context
    var name: string
    var columns: Envelope

    ghost predicate Valid() { Sound(primitives) && context.Plain() }

    constructor (c: Primitives<J>, kek: Bytes, x: Context, name: string, p: Payload<J>, d: Draw)
      requires Sound(c) && x.Plain()
      ensures Valid() && Stored() == Some(p) && context == x && this.name == name
      ensures SealedWith(primitives, this.kek, context, columns, p, d)
    {
      primitives, this.kek, context, this.name := c, kek, x, name;
      columns := Seal(c, kek, x, p, d);
      new;
      OpenSealed(c, kek, x, x, p, d);
      SealedWithItsDraw(c, kek, x, p, d);
    }

    /** What get_payload returns. */
    function Stored(): Option<Payload<J>>
      reads this
    {
      Open(primitives, kek, context, columns)
    }

    function Row(): Record
      reads this
    {
      Record(name, columns)
    }

    method SetPayload(settings: J, secrets: J, d: Draw)
      requires Valid()
      modifies this`columns
      ensures Stored() == Some(Payload(settings, secrets))
      ensures SealedWith(primitives, kek, context, columns, Payload(settings, secrets), d)
      ensures columns == Seal(primitives, kek, context, Payload(settings, secrets), d)
    {
      var wrapped := WrapDek(primitives, kek, d.dek, d.dekNonce, DekAad(context));
      var p := Payload(settings, secrets);
      var plaintext := primitives.dumps(p);
      var ct := primitives.encrypt(d.dek, d.payloadNonce, plaintext, PayloadAad(context));
      columns := Envelope(wrapped, primitives.b64e(d.payloadNonce), primitives.b64e(ct));
      OpenSealed(primitives, kek, context, context, p, d);
      SealedWithItsDraw(primitives, kek, context, p, d);
    }

    /** Rotation raises, and changes nothing, when the payload cannot be read; otherwise it keeps the
        payload, under a new key and in new columns. */
    method Rotate(d: Draw) returns (ok: bool)
      requires Valid()
      modifies this`columns
      ensures ok == old(Stored()).Some? && Stored() == old(Stored())
      ensures ok ==> SealedWith(primitives, kek, context, columns, Stored().value, d)
      ensures !ok ==> columns == old(columns)
      ensures ok ==> columns == Seal(primitives, kek, context, Stored().value, d)
      ensures Row() == Changed(primitives, kek, context, old(Row()), Rotation(d))
    {
      var payload := Stored();
      if payload.None? { return false; }
      SetPayload(payload.value.settings, payload.value.secrets, d);
      ok := true;
    }

    method Rename(name: string)
      modifies this`name
      ensures this.name == name && columns == old(columns) && Stored() == old(Stored())
      ensures Row() == Changed(primitives, kek, context, old(Row()), Renaming(name))
    {
      this.name := name;
    }
  }

  /* ------------------------------------ any sequence ------------------------------------ */

  datatype Change = Rotation(draw: Draw) | Renaming(name: string)

  datatype Record = Record(name: string, columns: Envelope)

  function Changed<J>(c: Primitives<J>, kek: Bytes, x: Context, r: Record, change: Change): Record {
    match change
    case Renaming(name) => r.(name := name)
    case Rotation(d) =>
      match Open(c, kek, x, r.columns)
      case None => r
      case Some(p) => r.(columns := Seal(c, kek, x, Payload(p.settings, p.secrets), d))
  }

  function ChangedAll<J>(c: Primitives<J>, kek: Bytes, x: Context, r: Record, changes: seq<Change>): Record {
    if changes == [] then r
    else Changed(c, kek, x, ChangedAll(c, kek, x, r, changes[..|changes| - 1]), changes[|changes| - 1])
  }

  /** After set_payload and any sequence of rotations and renames the payload is the original one. */
  lemma {:induction false} PayloadSurvives<J(!new)>(c: Primitives<J>, kek: Bytes, x: Context, name: string,
                                             p: Payload<J>, d: Draw, changes: seq<Change>)
    requires Sound(c) && x.Plain()
    ensures Open(c, kek, x, ChangedAll(c, kek, x, Record(name, Seal(c, kek, x, p, d)), changes).columns) == Some(p)
  {
    if changes == [] {
      OpenSealed(c, kek, x, x, p, d);
    } else {
      var last := changes[|changes| - 1];
      PayloadSurvives(c, kek, x, name, p, d, changes[..|changes| - 1]);
      if last.Rotation? { OpenSealed(c, kek, x, x, p, last.draw); }
    }
  }
}
