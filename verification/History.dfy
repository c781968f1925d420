/** The sealed-history opener (`history.rs`), with symbolic cryptography: X25519 (RFC 7748) is
    a symmetric term, HKDF (RFC 5869) and ChaCha20-Poly1305 (section 2.8 of RFC 8439) are free
    constructors, and a ciphertext opens only under its own key and nonce. */
module History {
  import opened Bytes

  type Secret = nat
  datatype PublicKey = Pub(secret: Secret)

  /** The shared secret of two key pairs, in no order. */
  datatype Shared = Dh(low: Secret, high: Secret)

  function DiffieHellman(mine: Secret, theirs: PublicKey): Shared {
    if mine <= theirs.secret then Dh(mine, theirs.secret) else Dh(theirs.secret, mine)
  }

  lemma DiffieHellmanAgrees(a: Secret, b: Secret)
    ensures DiffieHellman(a, Pub(b)) == DiffieHellman(b, Pub(a))
  {
  }

  /** Two agreements share a secret exactly when they are between the same two key pairs. */
  lemma DiffieHellmanIsTheirs(a: Secret, b: Secret, c: Secret, d: Secret)
    ensures DiffieHellman(a, Pub(b)) == DiffieHellman(c, Pub(d)) <==> (a == c && b == d) || (a == d && b == c)
  {
  }

  /** A content key, or a key derived by `derive_wrap_key`, whose info binds the ephemeral and
      the recipient's public key. */
  datatype Key = ContentKey(id: nat) | WrapKey(shared: Shared, epk: PublicKey, rpk: PublicKey)

  datatype Nonce = Nonce(id: nat)

  /** `data` is the base64-decoded payload, `None` if it does not decode. */
  datatype TranscriptRecord = TranscriptRecord(ts: int, kind: Text, data: Option<Text>)

  /** A plaintext: 32 key bytes, a record's JSON, or anything else. */
  datatype Plain = KeyBytes(key: Key) | RecordJson(record: TranscriptRecord) | OtherBytes

  datatype Cipher = Encrypted(key: Key, nonce: Nonce, plain: Plain) | Garbage

  function Decrypt(key: Key, nonce: Nonce, c: Cipher): Option<Plain> {
    if c.Encrypted? && c.key == key && c.nonce == nonce then Some(c.plain) else None
  }

  /** Hex and base64 fields are `None` where they do not decode to the right length. */
  datatype Stanza = Stanza(epk: Option<PublicKey>, n: Option<Nonce>, wk: Option<Cipher>)
  datatype SealedLine = SealedLine(v: nat, rcpts: seq<Stanza>, bn: Option<Nonce>, body: Option<Cipher>)

  datatype Result<+T> = Ok(value: T) | Err

  // ---------- opening ----------

  function WrapKeyFor(secret: Secret, epk: PublicKey): Key {
    WrapKey(DiffieHellman(secret, epk), epk, Pub(secret))
  }

  /** The record under a content key that a stanza gave up. */
  function OpenBody(cek: Plain, bn: Nonce, body: Cipher): Result<Option<TranscriptRecord>> {
    if !cek.KeyBytes? then Err else
    match Decrypt(cek.key, bn, body)
    case Some(RecordJson(record)) => Ok(Some(record))
    case _ => Err
  }

  /** The stanza loop: the first stanza that decrypts decides; a malformed stanza before it
      is an error. */
  function OpenStanzas(secret: Secret, rcpts: seq<Stanza>, bn: Nonce, body: Cipher): Result<Option<TranscriptRecord>> {
    if rcpts == [] then Ok(None) else
    var st := rcpts[0];
    if st.epk.None? || st.n.None? || st.wk.None? then Err else
    match Decrypt(WrapKeyFor(secret, st.epk.value), st.n.value, st.wk.value)
    case Some(cek) => OpenBody(cek, bn, body)
    case None => OpenStanzas(secret, rcpts[1..], bn, body)
  }

  /** `line` is `None` where the text is not a sealed line's JSON. */
  function Open(secret: Secret, line: Option<SealedLine>): Result<Option<TranscriptRecord>> {
    if line.None? || line.value.v != 2 || line.value.bn.None? || line.value.body.None? then Err
    else OpenStanzas(secret, line.value.rcpts, line.value.bn.value, line.value.body.value)
  }

  method OpenRecord(secret: Secret, line: Option<SealedLine>) returns (r: Result<Option<TranscriptRecord>>)
    ensures r == Open(secret, line)
  {
    if line.None? {
      return Err;
    }
    var sealed := line.value;
    if sealed.v != 2 {
      return Err;
    }
    if sealed.bn.None? || sealed.body.None? {
      return Err;
    }
    for i := 0 to |sealed.rcpts|
      invariant OpenStanzas(secret, sealed.rcpts, sealed.bn.value, sealed.body.value) ==
                OpenStanzas(secret, sealed.rcpts[i..], sealed.bn.value, sealed.body.value)
    {
      var st := sealed.rcpts[i];
      assert sealed.rcpts[i..][1..] == sealed.rcpts[i + 1..];
      if st.epk.None? || st.n.None? || st.wk.None? {
        return Err;
      }
      var cek := Decrypt(WrapKeyFor(secret, st.epk.value), st.n.value, st.wk.value);
      if cek.None? {
        continue;
      }
      return OpenBody(cek.value, sealed.bn.value, sealed.body.value);
    }
    return Ok(None);
  }

  predicate WellFormed(st: Stanza) { st.epk.Some? && st.n.Some? && st.wk.Some? }

  /** The stanza holds `plain`, wrapped for this device's key pair: the key binds the shared
      secret, the ephemeral and the device's public key. */
  predicate Holds(secret: Secret, st: Stanza, plain: Plain) {
    && WellFormed(st)
    && st.wk == Some(Encrypted(WrapKey(DiffieHellman(secret, st.epk.value), st.epk.value, Pub(secret)), st.n.value, plain))
  }

  /** A stanza that can be read but is not for this device. */
  ghost predicate Skipped(secret: Secret, st: Stanza) { WellFormed(st) && forall plain :: !Holds(secret, st, plain) }

  /** What a content key found in a stanza makes of the body: the record, or an error. */
  lemma BodyOpens(cek: Plain, bn: Nonce, body: Cipher, record: TranscriptRecord)
    ensures OpenBody(cek, bn, body) == Ok(Some(record)) <==>
            cek.KeyBytes? && body == Encrypted(cek.key, bn, RecordJson(record))
    ensures OpenBody(cek, bn, body) != Ok(None)
  {
  }

  /** A line opens to a record exactly when the first stanza that is not skipped holds the key
      under which the body is that record. */
  lemma {:induction false} FirstStanzaDecides(secret: Secret, rcpts: seq<Stanza>, bn: Nonce, body: Cipher, k: nat)
    requires k <= |rcpts| && forall i :: 0 <= i < k ==> Skipped(secret, rcpts[i])
    ensures var r := OpenStanzas(secret, rcpts, bn, body);
            if k == |rcpts| then r == Ok(None)
            else if !WellFormed(rcpts[k]) then r == Err
            else forall plain :: Holds(secret, rcpts[k], plain) ==> r == OpenBody(plain, bn, body)
    decreases k
  {
    if k > 0 {
      var st := rcpts[0];
      assert Skipped(secret, st);
      var found := Decrypt(WrapKeyFor(secret, st.epk.value), st.n.value, st.wk.value);
      assert found.Some? ==> Holds(secret, st, found.value);
      FirstStanzaDecides(secret, rcpts[1..], bn, body, k - 1);
    }
  }

  /** What is no line of version 2 with a body and its nonce is an error, whatever its
      stanzas; a line that is depends on its stanzas alone. */
  lemma LinesOpen(secret: Secret, line: Option<SealedLine>)
    ensures line.None? || line.value.v != 2 || line.value.bn.None? || line.value.body.None? ==> Open(secret, line) == Err
    ensures Open(secret, line) == Ok(None) ==> line.Some? && forall i :: 0 <= i < |line.value.rcpts| ==> Skipped(secret, line.value.rcpts[i])
    ensures Open(secret, line) != Err ==> line.Some? && line.value.v == 2
  {
    if Open(secret, line) == Ok(None) {
      NoneHolds(secret, line.value.rcpts, line.value.bn.value, line.value.body.value);
    }
  }

  lemma {:induction false} NoneHolds(secret: Secret, rcpts: seq<Stanza>, bn: Nonce, body: Cipher)
    requires OpenStanzas(secret, rcpts, bn, body) == Ok(None)
    ensures forall i :: 0 <= i < |rcpts| ==> Skipped(secret, rcpts[i])
    decreases |rcpts|
  {
    if rcpts != [] {
      assert Skipped(secret, rcpts[0]);
      NoneHolds(secret, rcpts[1..], bn, body);
      assert forall i :: 0 < i < |rcpts| ==> rcpts[i] == rcpts[1..][i - 1];
    }
  }

  // ---------- sealing ----------

  /** One recipient of a sealed record, with the ephemeral secret and nonce drawn for it. */
  datatype Recipient = Recipient(pk: PublicKey, ephemeral: Secret, nonce: Nonce)

  /** The sealer's side: the shared secret is taken from the ephemeral secret. */
  function WrapFor(r: Recipient, cek: nat): Stanza {
    var epk := Pub(r.ephemeral);
    var key := WrapKey(DiffieHellman(r.ephemeral, r.pk), epk, r.pk);
    Stanza(Some(epk), Some(r.nonce), Some(Encrypted(key, r.nonce, KeyBytes(ContentKey(cek)))))
  }

  function WrapAll(rs: seq<Recipient>, cek: nat): (s: seq<Stanza>)
    ensures |s| == |rs|
  {
    seq(|rs|, i requires 0 <= i < |rs| => WrapFor(rs[i], cek))
  }

  function Seal(rs: seq<Recipient>, cek: nat, bn: Nonce, record: TranscriptRecord): SealedLine {
    SealedLine(2, WrapAll(rs, cek), Some(bn), Some(Encrypted(ContentKey(cek), bn, RecordJson(record))))
  }

  predicate Listed(secret: Secret, rs: seq<Recipient>) {
    exists i :: 0 <= i < |rs| && rs[i].pk == Pub(secret)
  }

  lemma ListedCons(secret: Secret, rs: seq<Recipient>)
    requires rs != []
    ensures Listed(secret, rs) <==> rs[0].pk == Pub(secret) || Listed(secret, rs[1..])
  {
    if i :| 0 <= i < |rs| && rs[i].pk == Pub(secret) {
      assert i > 0 ==> rs[1..][i - 1] == rs[i];
    }
    if i :| 0 <= i < |rs[1..]| && rs[1..][i].pk == Pub(secret) {
      assert rs[i + 1] == rs[1..][i];
    }
  }

  /** A stanza unwraps for exactly its recipient. */
  lemma StanzaOpensForRecipient(secret: Secret, r: Recipient, cek: nat)
    ensures var st := WrapFor(r, cek);
            Decrypt(WrapKeyFor(secret, st.epk.value), st.n.value, st.wk.value) ==
            if r.pk == Pub(secret) then Some(KeyBytes(ContentKey(cek))) else None
  {
    DiffieHellmanAgrees(secret, r.ephemeral);
  }

  /** A record sealed to a recipient list opens to the original record for each recipient, at
      any stanza position, and to nothing for any other device. */
  lemma {:induction false} SealedOpens(secret: Secret, rs: seq<Recipient>, cek: nat, bn: Nonce, record: TranscriptRecord)
    ensures Open(secret, Some(Seal(rs, cek, bn, record))) == Ok(if Listed(secret, rs) then Some(record) else None)
    decreases |rs|
  {
    if rs != [] {
      var stanzas := WrapAll(rs, cek);
      assert stanzas[0] == WrapFor(rs[0], cek) && stanzas[1..] == WrapAll(rs[1..], cek);
      StanzaOpensForRecipient(secret, rs[0], cek);
      SealedOpens(secret, rs[1..], cek, bn, record);
      ListedCons(secret, rs);
    }
  }

  // ---------- replay ----------

  /** "pty", "stdout", "stderr". */
  predicate TerminalKind(kind: Text) {
    kind == [0x70, 0x74, 0x79] || kind == [0x73, 0x74, 0x64, 0x6f, 0x75, 0x74] || kind == [0x73, 0x74, 0x64, 0x65, 0x72, 0x72]
  }

  /** What one opened line adds to the terminal stream. */
  function Output(found: Result<Option<TranscriptRecord>>): Result<Text> {
    match found
    case Err => Err
    case Ok(None) => Ok([])
    case Ok(Some(record)) =>
      if !TerminalKind(record.kind) then Ok([])
      else match record.data case Some(bytes) => Ok(bytes) case None => Err
  }

  /** `decrypt_replay` on the string entries of `records`. */
  function Replay(secret: Secret, lines: seq<Option<SealedLine>>): Result<Text> {
    if lines == [] then Ok([]) else
    Joined(Replay(secret, lines[..|lines| - 1]), Output(Open(secret, lines[|lines| - 1])))
  }

  function Joined(a: Result<Text>, b: Result<Text>): Result<Text> {
    if a.Ok? && b.Ok? then Ok(a.value + b.value) else Err
  }

  /** `records` is `None` where the response has none; its entries that are not strings are
      `None` and are skipped. */
  method DecryptReplay(secret: Secret, records: Option<seq<Option<Option<SealedLine>>>>) returns (r: Result<Text>)
    ensures r == if records.None? then Err else Replay(secret, Strings(records.value))
  {
    if records.None? {
      return Err;
    }
    var out: Text := [];
    var lines := Strings(records.value);
    for i := 0 to |lines|
      invariant Replay(secret, lines[..i]) == Ok(out)
    {
      ReplayNext(secret, lines, i);
      var found := OpenRecord(secret, lines[i]);
      match found {
        case Err => return Err;
        case Ok(None) => assert out + [] == out;
        case Ok(Some(record)) =>
          if TerminalKind(record.kind) {
            if record.data.None? {
              return Err;
            }
            out := out + record.data.value;
          } else {
            assert out + [] == out;
          }
      }
    }
    assert lines[..|lines|] == lines;
    return Ok(out);
  }

  /** One more line, and how a failed line fails the whole. */
  lemma ReplayNext(secret: Secret, lines: seq<Option<SealedLine>>, i: nat)
    requires i < |lines|
    ensures Replay(secret, lines[..i + 1]) == Joined(Replay(secret, lines[..i]), Output(Open(secret, lines[i])))
    ensures Replay(secret, lines[..i + 1]).Err? ==> Replay(secret, lines).Err?
  {
    assert lines[..i + 1][..i] == lines[..i];
    assert lines == lines[..i + 1] + lines[i + 1..];
    ReplayConcat(secret, lines[..i + 1], lines[i + 1..]);
  }

  function Strings(entries: seq<Option<Option<SealedLine>>>): seq<Option<SealedLine>> {
    if entries == [] then [] else (if entries[0].Some? then [entries[0].value] else []) + Strings(entries[1..])
  }

  /** The strings of a list, in order, and nothing else. */
  lemma {:induction false} StringsConcat(a: seq<Option<Option<SealedLine>>>, b: seq<Option<Option<SealedLine>>>)
    ensures Strings(a + b) == Strings(a) + Strings(b)
    ensures forall line :: Strings([Some(line)]) == [line]
    ensures Strings([None]) == []
    decreases |a|
  {
    if a == [] {
      Unit(b);
      Unit(Strings(b));
    } else {
      assert (a + b)[1..] == a[1..] + b;
      StringsConcat(a[1..], b);
      Assoc(if a[0].Some? then [a[0].value] else [], Strings(a[1..]), Strings(b));
    }
  }

  /** The kinds of terminal output. */
  lemma TerminalKinds(kind: Text)
    ensures TerminalKind(kind) <==> kind == Ascii("pty") || kind == Ascii("stdout") || kind == Ascii("stderr")
  {
  }

  /** Replay distributes over concatenation of record lists. */
  lemma {:induction false} ReplayConcat(secret: Secret, a: seq<Option<SealedLine>>, b: seq<Option<SealedLine>>)
    ensures Replay(secret, a + b) == Joined(Replay(secret, a), Replay(secret, b))
    decreases |b|
  {
    if b == [] {
      assert a + b == a;
      assert Replay(secret, a).Ok? ==> Replay(secret, a).value + [] == Replay(secret, a).value;
    } else {
      var init, last := b[..|b| - 1], Output(Open(secret, b[|b| - 1]));
      assert (a + b)[..|a + b| - 1] == a + init;
      ReplayConcat(secret, a, init);
      var (x, y) := (Replay(secret, a), Replay(secret, init));
      if x.Ok? && y.Ok? && last.Ok? {
        assert (x.value + y.value) + last.value == x.value + (y.value + last.value);
      }
    }
  }

  /** A record as it was sealed. */
  datatype Sealing = Sealing(rs: seq<Recipient>, cek: nat, bn: Nonce, record: TranscriptRecord)

  function SealAll(history: seq<Sealing>): (s: seq<Option<SealedLine>>)
    ensures |s| == |history|
  {
    seq(|history|, i requires 0 <= i < |history| =>
      Some(Seal(history[i].rs, history[i].cek, history[i].bn, history[i].record)))
  }

  /** A record of terminal output that this device can open. */
  predicate Concerns(secret: Secret, s: Sealing) { Listed(secret, s.rs) && TerminalKind(s.record.kind) }

  /** Its part in this device's terminal output. */
  function Said(secret: Secret, s: Sealing): Text {
    if Concerns(secret, s) && s.record.data.Some? then s.record.data.value else []
  }

  /** This device's terminal output in a history, in order. */
  function Terminal(secret: Secret, history: seq<Sealing>): Text {
    if history == [] then [] else
    var s := history[|history| - 1];
    Terminal(secret, history[..|history| - 1]) + Said(secret, s)
  }

  /** A record that does not concern the device need not decode. */
  predicate Decodes(secret: Secret, s: Sealing) { Concerns(secret, s) ==> s.record.data.Some? }

  predicate Readable(secret: Secret, history: seq<Sealing>) {
    forall i :: 0 <= i < |history| ==> Decodes(secret, history[i])
  }

  /** What replay adds for one sealed record. */
  function Added(secret: Secret, s: Sealing): Result<Text> {
    if !Concerns(secret, s) then Ok([]) else match s.record.data case Some(bytes) => Ok(bytes) case None => Err
  }

  /** What one sealed record adds. */
  lemma SealedOutput(secret: Secret, s: Sealing)
    ensures Output(Open(secret, Some(Seal(s.rs, s.cek, s.bn, s.record)))) == Added(secret, s)
  {
    SealedOpens(secret, s.rs, s.cek, s.bn, s.record);
    hide Open, Seal, Listed, TerminalKind;
  }

  /** Replaying a sealed history is the in-order concatenation of this device's pty, stdout
      and stderr data, and fails exactly when one of those records does not decode. Records
      for other devices and of other kinds add nothing, decodable or not. */
  lemma {:induction false} ReplayIsTerminalOutput(secret: Secret, history: seq<Sealing>)
    ensures var r := Replay(secret, SealAll(history));
            && (r.Ok? <==> Readable(secret, history))
            && (r.Ok? ==> r.value == Terminal(secret, history))
    decreases |history|
  {
    if history != [] {
      var init, s := history[..|history| - 1], history[|history| - 1];
      ReplayIsTerminalOutput(secret, init);
      ReplaySealedSnoc(secret, history);
      hide *;
      ReadableSnoc(secret, init, s);
      TerminalSnoc(secret, init, s);
      assert history == init + [s];
      JoinedIs(Replay(secret, SealAll(init)), Added(secret, s));
      AddedIs(secret, s);
    }
  }

  lemma JoinedIs(a: Result<Text>, b: Result<Text>)
    ensures Joined(a, b).Ok? <==> a.Ok? && b.Ok?
    ensures a.Ok? && b.Ok? ==> Joined(a, b).value == a.value + b.value
  {
  }

  lemma AddedIs(secret: Secret, s: Sealing)
    ensures Added(secret, s).Ok? <==> Decodes(secret, s)
    ensures Added(secret, s).Ok? ==> Added(secret, s).value == Said(secret, s)
  {
    hide Concerns;
  }

  lemma ReadableSnoc(secret: Secret, init: seq<Sealing>, s: Sealing)
    ensures Readable(secret, init + [s]) <==> Readable(secret, init) && Decodes(secret, s)
  {
    hide Decodes;
    var all := init + [s];
    assert all[|init|] == s && forall i :: 0 <= i < |init| ==> all[i] == init[i];
  }

  lemma TerminalSnoc(secret: Secret, init: seq<Sealing>, s: Sealing)
    ensures Terminal(secret, init + [s]) == Terminal(secret, init) + Said(secret, s)
  {
    hide Said;
    assert (init + [s])[..|init|] == init;
  }

  lemma ReplaySealedSnoc(secret: Secret, history: seq<Sealing>)
    requires history != []
    ensures var init, s := history[..|history| - 1], history[|history| - 1];
            Replay(secret, SealAll(history)) ==
            Joined(Replay(secret, SealAll(init)), Added(secret, s))
  {
    var init, s := history[..|history| - 1], history[|history| - 1];
    assert SealAll(history)[..|init|] == SealAll(init);
    SealedOutput(secret, s);
    hide Open, Output, Added, Seal;
  }
}
