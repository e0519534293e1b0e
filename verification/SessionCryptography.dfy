/**
 The handshake, the key agreement and the message cipher, symbolically: a hash is the value it
 hashes, a signature names its signer and its payload, an agreed secret is the unordered pair of
 the two private keys, and a ciphertext opens exactly under the key, nonce and additional data it
 was sealed with.
 */
module SessionCryptography {
  import opened Wrappers
  import opened ProtocolContracts

  // ---------- identities and key agreement ----------

  /** An Ed25519 public key, named by its key pair. */
  datatype PublicKey = PublicKey(pair: nat)

  /** The prefix of the key's SHA-256 hash that names a device. */
  datatype DeviceId = DeviceId(key: PublicKey)

  /** An X25519 public key, named by its private key. */
  datatype EphemeralKey = EphemeralKey(secret: nat)

  /** `diffieHellman`: the same value from either end. */
  function SharedSecret(secret: nat, remote: EphemeralKey): set<nat> {
    {secret, remote.secret}
  }

  // ---------- handshake messages ----------

  datatype ClientFields = ClientFields(
    session: nat, device: DeviceId, identity: PublicKey, ephemeral: EphemeralKey, nonce: nat, intent: Intent)

  datatype ServerFields = ServerFields(
    session: nat, device: DeviceId, identity: PublicKey, ephemeral: EphemeralKey, nonce: nat, helloHash: Digest)

  datatype Digest = Digest(hello: ClientHello)

  datatype Payload = ClientPayload(client: ClientFields) | ServerPayload(server: ServerFields)

  datatype Signature = Signature(signer: nat, payload: Payload)

  datatype ClientHello = ClientHello(fields: ClientFields, signature: Signature)

  datatype ServerHello = ServerHello(fields: ServerFields, signature: Signature)

  predicate VerifySignature(key: PublicKey, payload: Payload, signature: Signature) {
    signature == Signature(key.pair, payload)
  }

  predicate VerifyClientHello(hello: ClientHello) {
    && hello.fields.device == DeviceId(hello.fields.identity)
    && VerifySignature(hello.fields.identity, ClientPayload(hello.fields), hello.signature)
  }

  predicate VerifyServerHello(hello: ServerHello, client: ClientHello) {
    && hello.fields.session == client.fields.session
    && hello.fields.helloHash == Digest(client)
    && hello.fields.device == DeviceId(hello.fields.identity)
    && VerifySignature(hello.fields.identity, ServerPayload(hello.fields), hello.signature)
  }

  /** What one end brings to a session: its identity key pair, its ephemeral secret and its random values. */
  datatype Credentials = Credentials(identity: nat, ephemeral: nat, nonce: nat, session: nat)

  function OwnDevice(own: Credentials): DeviceId { DeviceId(PublicKey(own.identity)) }

  function CreateClientHello(own: Credentials, intent: Intent): ClientHello {
    var fields := ClientFields(
      own.session, OwnDevice(own), PublicKey(own.identity), EphemeralKey(own.ephemeral), own.nonce, intent);
    ClientHello(fields, Signature(own.identity, ClientPayload(fields)))
  }

  function CreateServerHello(own: Credentials, client: ClientHello): ServerHello {
    var fields := ServerFields(
      client.fields.session, OwnDevice(own), PublicKey(own.identity), EphemeralKey(own.ephemeral), own.nonce,
      Digest(client));
    ServerHello(fields, Signature(own.identity, ServerPayload(fields)))
  }

  // ---------- derived values ----------

  datatype Direction = InitiatorToResponder | ResponderToInitiator

  /** One half of the 64 bytes HKDF derives from the secret and the hash of the two hellos. */
  datatype Key = Key(secret: set<nat>, client: ClientHello, server: ServerHello, direction: Direction)

  /** The short code, as the value it is a digest of; that two values may share six digits is not modelled. */
  datatype Code = Code(secret: set<nat>, client: ClientHello, server: ServerHello)

  // ---------- the message cipher ----------

  const COUNTER_LIMIT := 0x1_0000_0000_0000_0000

  datatype Cipher = Cipher(
    session: nat, transmitKey: Key, receiveKey: Key, transmitted: nat, received: nat)

  /** An AES-GCM result: the key, nonce and additional data it was made with, and what it hides. */
  datatype Sealed = Sealed(key: Key, nonce: nat, session: nat, aadCounter: nat, plaintext: Message)

  datatype Envelope = Envelope(counter: nat, sealed: Sealed)

  function CreateCipher(session: nat, secret: set<nat>, client: ClientHello, server: ServerHello, initiator: bool): Cipher {
    var outward := Key(secret, client, server, InitiatorToResponder);
    var inward := Key(secret, client, server, ResponderToInitiator);
    if initiator then Cipher(session, outward, inward, 0, 0) else Cipher(session, inward, outward, 0, 0)
  }

  /** The envelope for the next counter; none when the counter does not fit the nonce's 64 bits. */
  function Seal(cipher: Cipher, message: Message): Option<Envelope> {
    var counter := cipher.transmitted + 1;
    if counter >= COUNTER_LIMIT then None
    else Some(Envelope(counter, Sealed(cipher.transmitKey, counter, cipher.session, counter, message)))
  }

  function Opened(cipher: Cipher, envelope: Envelope): Option<Message> {
    if envelope.counter != cipher.received + 1 || envelope.counter >= COUNTER_LIMIT then None
    else if && envelope.sealed.key == cipher.receiveKey
            && envelope.sealed.nonce == envelope.counter
            && envelope.sealed.session == cipher.session
            && envelope.sealed.aadCounter == envelope.counter
            && Acceptable(envelope.sealed.plaintext)
    then Some(envelope.sealed.plaintext)
    else None
  }

  class SecureMessageCipher {
    const session: nat
    const transmitKey: Key
    const receiveKey: Key
    var transmitCounter: nat
    var receiveCounter: nat

    function State(): Cipher
      reads this
    {
      Cipher(session, transmitKey, receiveKey, transmitCounter, receiveCounter)
    }

    constructor (session: nat, secret: set<nat>, client: ClientHello, server: ServerHello, initiator: bool)
      ensures State() == CreateCipher(session, secret, client, server, initiator)
    {
      this.session := session;
      var outward := Key(secret, client, server, InitiatorToResponder);
      var inward := Key(secret, client, server, ResponderToInitiator);
      transmitKey := if initiator then outward else inward;
      receiveKey := if initiator then inward else outward;
      transmitCounter, receiveCounter := 0, 0;
    }

    /** The counter moves on even when no envelope comes of it. */
    method Encrypt(message: Message) returns (envelope: Option<Envelope>)
      modifies this`transmitCounter
      ensures State() == old(State()).(transmitted := old(State()).transmitted + 1)
      ensures envelope == Seal(old(State()), message)
    {
      transmitCounter := transmitCounter + 1;
      if transmitCounter >= COUNTER_LIMIT {
        return None;
      }
      envelope := Some(Envelope(transmitCounter, Sealed(transmitKey, transmitCounter, session, transmitCounter, message)));
    }

    /** The counter moves on only when a message comes out. */
    method Decrypt(envelope: Envelope) returns (message: Option<Message>)
      modifies this`receiveCounter
      ensures message == Opened(old(State()), envelope)
      ensures State() == if message.Some? then old(State()).(received := envelope.counter) else old(State())
    {
      if envelope.counter != receiveCounter + 1 || envelope.counter >= COUNTER_LIMIT {
        return None;
      }
      var sealed := envelope.sealed;
      if sealed.key != receiveKey || sealed.nonce != envelope.counter ||
         sealed.session != session || sealed.aadCounter != envelope.counter {
        return None;
      }
      if !Acceptable(sealed.plaintext) {
        return None;
      }
      receiveCounter := envelope.counter;
      message := Some(sealed.plaintext);
    }
  }

  // ---------- laws ----------

  /** The 12 bytes of a nonce: four zero bytes and the counter in big-endian order. */
  function BigEndian(counter: nat, width: nat): seq<nat> {
    if width == 0 then [] else BigEndian(counter / 256, width - 1) + [counter % 256]
  }

  function NonceBytes(counter: nat): seq<nat> { [0, 0, 0, 0] + BigEndian(counter, 8) }

  function PowerOf256(width: nat): nat { if width == 0 then 1 else 256 * PowerOf256(width - 1) }

  lemma {:induction false} BigEndianInjective(a: nat, b: nat, width: nat)
    requires a < PowerOf256(width) && b < PowerOf256(width)
    requires BigEndian(a, width) == BigEndian(b, width)
    ensures a == b
  {
    if width > 0 {
      var x, y := BigEndian(a / 256, width - 1), BigEndian(b / 256, width - 1);
      BigEndianWidth(a / 256, width - 1);
      BigEndianWidth(b / 256, width - 1);
      assert x == (x + [a % 256])[..width - 1];
      assert y == (y + [b % 256])[..width - 1];
      assert (x + [a % 256])[width - 1] == a % 256;
      assert (y + [b % 256])[width - 1] == b % 256;
      BigEndianInjective(a / 256, b / 256, width - 1);
    }
  }

  lemma {:induction false} BigEndianWidth(counter: nat, width: nat)
    ensures |BigEndian(counter, width)| == width
  {
    if width > 0 {
      BigEndianWidth(counter / 256, width - 1);
    }
  }

  /** Two counters the cipher can use never give the same nonce bytes. */
  lemma NonceInjective(a: nat, b: nat)
    requires a < COUNTER_LIMIT && b < COUNTER_LIMIT
    requires NonceBytes(a) == NonceBytes(b)
    ensures a == b
  {
    assert PowerOf256(8) == COUNTER_LIMIT by {
      assert PowerOf256(4) == 0x1_0000_0000;
    }
    assert BigEndian(a, 8) == NonceBytes(a)[4..];
    assert BigEndian(b, 8) == NonceBytes(b)[4..];
    BigEndianInjective(a, b, 8);
  }

  /** A run of the receiver over the envelopes the network hands it: the messages that come out, in order. */
  function Accepted(cipher: Cipher, envelopes: seq<Envelope>): seq<Message>
    decreases |envelopes|
  {
    if envelopes == [] then []
    else match Opened(cipher, envelopes[0])
      case None => Accepted(cipher, envelopes[1..])
      case Some(message) =>
        [message] + Accepted(cipher.(received := envelopes[0].counter), envelopes[1..])
  }

  /**
   The sealed values in circulation are those of an honest sender: the k-th message sent under the
   receiver's key is the only plaintext sealed with nonce k.
   */
  ghost predicate SealedBySender(key: Key, sent: seq<Message>, sealed: Sealed) {
    sealed.key == key ==> 1 <= sealed.nonce <= |sent| && sealed.plaintext == sent[sealed.nonce - 1]
  }

  /**
   Whatever the network does to the envelopes (drops, repeats, reorders, relabels, mixes in values
   sealed under other keys), the messages accepted are the sender's messages in order, from the one
   after the last accepted, with no gap and no repeat.
   */
  lemma {:induction false} AcceptedIsPrefixOfSent(cipher: Cipher, envelopes: seq<Envelope>, sent: seq<Message>)
    requires cipher.received <= |sent|
    requires forall e <- envelopes :: SealedBySender(cipher.receiveKey, sent, e.sealed)
    ensures Accepted(cipher, envelopes) <= sent[cipher.received..]
    decreases |envelopes|
  {
    if envelopes != [] {
      var first := envelopes[0];
      assert first in envelopes;
      match Opened(cipher, first)
      case None => AcceptedIsPrefixOfSent(cipher, envelopes[1..], sent);
      case Some(message) =>
        assert message == sent[cipher.received];
        AcceptedIsPrefixOfSent(cipher.(received := first.counter), envelopes[1..], sent);
        assert sent[cipher.received..] == [message] + sent[cipher.received + 1..];
    }
  }
}
