/**
 The session object itself: its fields are updated step by step, and every method is proved to do
 what the function of the same name in SessionModel does to the state.  An exception is the
 out-parameter `threw`; the `await` of `tryEstablishConnection` ends that method, and
 `ResumeEstablish` is what follows it.
 */
module PeerSession {
  import opened Wrappers
  import opened ProtocolContracts
  import opened SessionCryptography
  import opened EnvelopeText
  import opened SessionModel
  import Model = SessionModel

  class PeerSession {
    const initiator: bool
    const own: Credentials
    const expectedDevice: Option<DeviceId>
    var phase: Phase
    var intent: Option<Intent>
    var clientHello: Option<ClientHello>
    var serverHello: Option<ServerHello>
    var cipher: Option<Cipher>
    var peer: Option<Peer>
    var peerKey: Option<PublicKey>
    var code: Option<Code>
    var prompt: Option<Prompt>
    var localConsent: Option<bool>
    var remoteConsent: Option<bool>
    var role: Role
    var failed: bool
    var handshakeTimer: bool
    var keepAliveTimer: bool
    var lastSecureAt: int
    var pings: set<nat>
    var outgoingReversal: Option<nat>
    var incomingReversal: Option<nat>
    var requests: map<nat, PendingRequest>
    var resolved: map<nat, seq<DiagnosticRecord>>
    var rejected: set<nat>
    var grants: seq<Grant>
    var suspended: nat
    var signals: seq<Signal>
    var transportClosed: bool
    var outbox: seq<Wire>

    function State(): Session
      reads this
    {
      Session(
        initiator, own, expectedDevice, phase, intent, clientHello, serverHello, cipher, peer, peerKey, code,
        prompt, localConsent, remoteConsent, role, failed, handshakeTimer, keepAliveTimer, lastSecureAt, pings,
        outgoingReversal, incomingReversal, requests, resolved, rejected, grants, suspended, signals,
        transportClosed, outbox)
    }

    constructor (initiator: bool, own: Credentials, expectedDevice: Option<DeviceId>, now: int)
      ensures State() == NewSession(initiator, own, expectedDevice, now)
    {
      this.initiator, this.own, this.expectedDevice := initiator, own, expectedDevice;
      phase := if initiator then AwaitingServerHello else AwaitingClientHello;
      intent, clientHello, serverHello, cipher := None, None, None, None;
      peer, peerKey, code, prompt, localConsent, remoteConsent := None, None, None, None, None, None;
      role, failed, handshakeTimer, keepAliveTimer, lastSecureAt, pings := NoRole, false, false, false, now, {};
      outgoingReversal, incomingReversal, requests, resolved, rejected := None, None, map[], map[], {};
      grants, suspended, signals, transportClosed, outbox := [], 0, [], false, [];
    }

    // ---------- sending and closing ----------

    method SendHello(frame: Wire) returns (threw: bool)
      modifies this`outbox
      ensures Outcome(State(), threw) == Model.SendHello(old(State()), frame)
    {
      if transportClosed {
        return true;
      }
      outbox := outbox + [frame];
      threw := false;
    }

    /** `JsonLineTransport.send` for an envelope whose plaintext has the given length. */
    method TransportSend(envelope: Envelope, plaintextBytes: nat) returns (threw: bool)
      modifies this`outbox
      ensures threw <==> transportClosed || !FrameFits(envelope.counter, plaintextBytes)
      ensures outbox == if threw then old(outbox) else old(outbox) + [SecureFrame(envelope)]
    {
      if transportClosed || !FrameFits(envelope.counter, plaintextBytes) {
        return true;
      }
      outbox := outbox + [SecureFrame(envelope)];
      threw := false;
    }

    method SendSecure(message: Message) returns (threw: bool)
      modifies this`outbox, this`cipher
      ensures Outcome(State(), threw) == Model.SendSecure(old(State()), message)
    {
      if cipher.None? {
        return true;
      }
      var envelope := Seal(cipher.value, message);
      cipher := Some(cipher.value.(transmitted := cipher.value.transmitted + 1));
      if envelope.None? {
        return true;
      }
      threw := TransportSend(envelope.value, PlaintextBytes(message));
    }

    method RejectPendingDiagnosticRequests()
      modifies this`requests, this`rejected
      ensures State() == old(State()).(requests := map[], rejected := old(rejected) + old(requests).Keys)
    {
      var left := requests.Keys;
      while left != {}
        invariant left <= requests.Keys && requests == old(requests)
        invariant rejected == old(rejected) + (requests.Keys - left)
        decreases |left|
      {
        var id :| id in left;
        rejected := rejected + {id};
        left := left - {id};
      }
      requests := map[];
    }

    method ClearTimers()
      modifies this`handshakeTimer, this`keepAliveTimer, this`requests, this`rejected
      ensures State() == Model.ClearTimers(old(State()))
    {
      handshakeTimer := false;
      keepAliveTimer := false;
      assert State() == old(State()).(handshakeTimer := false, keepAliveTimer := false);
      RejectPendingDiagnosticRequests();
    }

    method LeaveConversation()
      modifies this`prompt, this`role
      ensures State() == old(State()).(prompt := None, role := NoRole)
    {
      prompt := None;
      role := NoRole;
    }

    method MarkClosed(expected: bool)
      modifies this`phase, this`failed
      ensures State() == old(State()).(phase := Closed, failed := !expected)
    {
      phase := Closed;
      failed := !expected;
    }

    method CloseWithError(expected: bool)
      modifies this
      ensures State() == Model.CloseWithError(old(State()), expected)
    {
      if phase == Closed {
        return;
      }
      ClearTimers();
      LeaveConversation();
      MarkClosed(expected);
      transportClosed := true;
    }

    method Dispose()
      modifies this
      ensures State() == Model.Dispose(old(State()))
    {
      ClearTimers();
      transportClosed := true;
      phase := Closed;
    }

    method TransportGone()
      modifies this
      ensures State() == Model.TransportGone(old(State()))
    {
      if transportClosed {
        return;
      }
      transportClosed := true;
      CloseWithError(false);
    }

    method Disconnect()
      modifies this
      ensures State() == DisconnectSession(old(State()))
    {
      if cipher.Some? && phase != Closed {
        var threw := SendSecure(Message.Disconnect);
        if threw {
          CloseWithError(true);
          return;
        }
      }
      CloseWithError(true);
    }

    // ---------- establishment ----------

    method StartKeepAlive(now: int)
      modifies this`keepAliveTimer, this`lastSecureAt
      ensures State() == Model.StartKeepAlive(old(State()), now)
    {
      if keepAliveTimer {
        return;
      }
      lastSecureAt := now;
      keepAliveTimer := true;
    }

    method BecomeConnected()
      modifies this`phase, this`role
      ensures State() == old(State()).(phase := Connected, role := InitialRole(old(intent), initiator))
    {
      phase := Connected;
      role := InitialRole(intent, initiator);
    }

    method Establish(now: int)
      modifies this
      ensures State() == Model.Establish(old(State()), now)
    {
      prompt := None;
      BecomeConnected();
      StartKeepAlive(now);
    }

    method TryEstablishConnection(now: int)
      modifies this
      ensures State() == TryEstablish(old(State()), now)
    {
      if localConsent != Some(true) || remoteConsent != Some(true) || peer.None? || peerKey.None? || intent.None? {
        return;
      }
      if !initiator && !peer.value.paired {
        grants := grants + [Grant(intent.value, peer.value.device, peerKey.value)];
        suspended := suspended + 1;
        return;
      }
      Establish(now);
    }

    /** The trust store has answered. */
    method ResumeEstablish(now: int)
      modifies this
      ensures State() == Model.ResumeEstablish(old(State()), now)
    {
      if suspended == 0 || peer.None? {
        return;
      }
      suspended := suspended - 1;
      peer := Some(peer.value.(paired := true));
      Establish(now);
    }

    // ---------- handshake ----------

    method CallPeer(intent: Intent) returns (threw: bool)
      modifies this`intent, this`clientHello, this`outbox
      ensures var hello := CreateClientHello(own, intent);
              Outcome(State(), threw) ==
              Model.SendHello(old(State()).(intent := Some(intent), clientHello := Some(hello)), ClientHelloFrame(hello))
    {
      this.intent := Some(intent);
      clientHello := Some(CreateClientHello(own, intent));
      threw := SendHello(ClientHelloFrame(clientHello.value));
    }

    method Start(intent: Intent) returns (threw: bool)
      modifies this
      ensures Outcome(State(), threw) == Model.Start(old(State()), intent)
    {
      handshakeTimer := true;
      threw := false;
      if initiator {
        threw := CallPeer(intent);
      }
    }

    method CreateSessionCipher(client: ClientHello, server: ServerHello)
      modifies this`code, this`cipher
      ensures State() == WithCipher(old(State()), client, server)
    {
      var secret := SharedSecret(own.ephemeral, if initiator then server.fields.ephemeral else client.fields.ephemeral);
      code := Some(Code(secret, client, server));
      cipher := Some(CreateCipher(client.fields.session, secret, client, server, initiator));
    }

    /** `createPeer`: only a responder looks its peer up in the trust store. */
    function CreatePeer(hello: ClientHello, trust: Trust): Peer {
      var fields := hello.fields;
      Peer(fields.device, !initiator && IsTrusted(trust, fields.device, fields.identity, fields.intent))
    }

    method LearnPeer(key: PublicKey, peer: Peer)
      modifies this`peerKey, this`peer
      ensures State() == old(State()).(peerKey := Some(key), peer := Some(peer))
    {
      peerKey := Some(key);
      this.peer := Some(peer);
    }

    method LearnClient(hello: ClientHello, trust: Trust)
      modifies this
      ensures State() == old(State()).(
                clientHello := Some(hello), intent := Some(hello.fields.intent), peerKey := Some(hello.fields.identity),
                peer := Some(CreatePeer(hello, trust)))
    {
      clientHello := Some(hello);
      intent := Some(hello.fields.intent);
      LearnPeer(hello.fields.identity, CreatePeer(hello, trust));
    }

    method OpenChannel(client: ClientHello, server: ServerHello)
      modifies this`code, this`cipher, this`phase
      ensures State() == WithCipher(old(State()), client, server).(phase := AwaitingSecureReady)
    {
      CreateSessionCipher(client, server);
      phase := AwaitingSecureReady;
    }

    method AnswerHello(client: ClientHello, server: ServerHello) returns (threw: bool)
      modifies this
      ensures Outcome(State(), threw) ==
              (var sent := Model.SendHello(old(State()).(serverHello := Some(server)), ServerHelloFrame(server));
               if sent.threw then sent
               else Done(WithCipher(sent.session, client, server).(phase := AwaitingSecureReady)))
    {
      serverHello := Some(server);
      threw := SendHello(ServerHelloFrame(server));
      if !threw {
        OpenChannel(client, server);
      }
    }

    method HandleClientHello(hello: ClientHello, trust: Trust) returns (threw: bool)
      modifies this
      ensures Outcome(State(), threw) == Model.HandleClientHello(old(State()), hello, trust)
    {
      if !VerifyClientHello(hello) {
        return true;
      }
      LearnClient(hello, trust);
      threw := AnswerHello(hello, CreateServerHello(own, hello));
    }

    method JoinPeer(client: ClientHello, server: ServerHello)
      modifies this
      ensures State() ==
              WithCipher(old(State()).(serverHello := Some(server), peerKey := Some(server.fields.identity),
                                       peer := Some(Peer(server.fields.device, false))), client, server)
    {
      serverHello := Some(server);
      LearnPeer(server.fields.identity, Peer(server.fields.device, false));
      CreateSessionCipher(client, server);
    }

    method HandleServerHello(hello: ServerHello) returns (threw: bool)
      modifies this
      ensures Outcome(State(), threw) == Model.HandleServerHello(old(State()), hello)
    {
      if clientHello.None? || !VerifyServerHello(hello, clientHello.value) {
        return true;
      }
      if expectedDevice.Some? && hello.fields.device != expectedDevice.value {
        return true;
      }
      JoinPeer(clientHello.value, hello);
      phase := AwaitingSecureAcknowledgement;
      threw := SendSecure(Ready);
    }

    // ---------- consent ----------

    /** The local side approves and says so. */
    method Decide(prompt: Option<Prompt>, accepted: bool) returns (threw: bool)
      modifies this
      ensures Outcome(State(), threw) ==
              Model.SendSecure(old(State()).(prompt := prompt, localConsent := Some(accepted)), ConsentDecision(accepted))
    {
      this.prompt := prompt;
      localConsent := Some(accepted);
      threw := SendSecure(ConsentDecision(accepted));
    }

    method AskForConsent(promptId: nat) returns (threw: bool)
      requires peer.Some?
      modifies this
      ensures Outcome(State(), threw) ==
              (var s := old(State());
               if s.initiator then
                 Model.SendSecure(s.(prompt := Some(Prompt(promptId, Pairing, WaitingForPeer)), localConsent := Some(true)),
                                  ConsentDecision(true))
               else if s.peer.value.paired then
                 Model.SendSecure(s.(prompt := None, localConsent := Some(true)), ConsentDecision(true))
               else Done(s.(prompt := Some(Prompt(promptId, Pairing, EnterVerificationCode)))))
    {
      threw := false;
      if !initiator && peer.value.paired {
        threw := Decide(None, true);
      } else if initiator {
        threw := Decide(Some(Prompt(promptId, Pairing, WaitingForPeer)), true);
      } else {
        prompt := Some(Prompt(promptId, Pairing, EnterVerificationCode));
      }
    }

    method EnterConsentPhase(now: int, promptId: nat) returns (threw: bool)
      modifies this
      ensures Outcome(State(), threw) == Model.EnterConsentPhase(old(State()), now, promptId)
    {
      handshakeTimer := false;
      if peer.None? || intent.None? {
        return true;
      }
      phase := AwaitingConsent;
      if code.None? {
        return true;
      }
      StartKeepAlive(now);
      threw := AskForConsent(promptId);
    }

    method HandleReady(now: int, promptId: nat) returns (threw: bool)
      modifies this
      ensures Outcome(State(), threw) == Model.HandleReady(old(State()), now, promptId)
    {
      if phase != AwaitingSecureReady {
        return true;
      }
      threw := SendSecure(ReadyAcknowledged);
      if !threw {
        threw := EnterConsentPhase(now, promptId);
      }
    }

    method HandleReadyAcknowledged(now: int, promptId: nat) returns (threw: bool)
      modifies this
      ensures Outcome(State(), threw) == Model.HandleReadyAcknowledged(old(State()), now, promptId)
    {
      if phase != AwaitingSecureAcknowledgement {
        return true;
      }
      threw := EnterConsentPhase(now, promptId);
    }

    method HandleConsentDecision(accepted: bool, now: int) returns (threw: bool)
      modifies this
      ensures Outcome(State(), threw) == Model.HandleConsentDecision(old(State()), accepted, now)
    {
      if phase != AwaitingConsent {
        return true;
      }
      threw := false;
      remoteConsent := Some(accepted);
      if !accepted {
        CloseWithError(true);
        return;
      }
      TryEstablishConnection(now);
    }

    method RespondToPrompt(promptId: nat, accepted: bool, entered: Option<Code>, now: int) returns (threw: bool)
      modifies this
      ensures Outcome(State(), threw) == Model.RespondToPrompt(old(State()), promptId, accepted, entered, now)
    {
      if prompt.None? || prompt.value.id != promptId {
        return true;
      }
      if prompt.value.kind == Reversal {
        threw := RespondToReversal(accepted);
        return;
      }
      if prompt.value.mode == WaitingForPeer && accepted {
        return true;
      }
      if prompt.value.mode == EnterVerificationCode && accepted {
        if code.None? || entered != code {
          return true;
        }
      }
      threw := Decide(None, accepted);
      if threw {
        return;
      }
      if !accepted {
        CloseWithError(true);
        return;
      }
      TryEstablishConnection(now);
    }

    // ---------- direction reversal ----------

    method ToggleRole()
      modifies this`role
      ensures State() == old(State()).(role := Toggle(old(role)))
    {
      role := if role == Viewer then Sharer else Viewer;
    }

    method RequestReversal(id: nat) returns (threw: bool)
      modifies this
      ensures Outcome(State(), threw) == Model.RequestReversal(old(State()), id)
    {
      if phase != Connected || outgoingReversal.Some? {
        return true;
      }
      outgoingReversal := Some(id);
      threw := SendSecure(ReversalRequest(id));
    }

    method HandleReversalRequest(id: nat, promptId: nat) returns (threw: bool)
      modifies this
      ensures Outcome(State(), threw) == Model.HandleReversalRequest(old(State()), id, promptId)
    {
      if phase != Connected || prompt.Some? {
        threw := SendSecure(ReversalDecision(id, false));
        return;
      }
      incomingReversal := Some(id);
      prompt := Some(Prompt(promptId, Reversal, Decision));
      threw := false;
    }

    method RespondToReversal(accepted: bool) returns (threw: bool)
      modifies this
      ensures Outcome(State(), threw) == Model.RespondToReversal(old(State()), accepted)
    {
      if incomingReversal.None? {
        return true;
      }
      var id := incomingReversal.value;
      incomingReversal := None;
      prompt := None;
      threw := SendSecure(ReversalDecision(id, accepted));
      if !threw && accepted {
        ToggleRole();
      }
    }

    method HandleReversalDecision(id: nat, accepted: bool) returns (threw: bool)
      modifies this
      ensures Outcome(State(), threw) == Model.HandleReversalDecision(old(State()), id, accepted)
    {
      if outgoingReversal != Some(id) {
        return true;
      }
      outgoingReversal := None;
      if accepted {
        ToggleRole();
      }
      threw := false;
    }

    // ---------- diagnostics and media ----------

    method RejectRequest(id: nat)
      modifies this`requests, this`rejected
      ensures State() == old(State()).(requests := old(requests) - {id}, rejected := old(rejected) + {id})
    {
      requests := requests - {id};
      rejected := rejected + {id};
    }

    method RequestDiagnostics(limit: int, id: nat) returns (threw: bool)
      modifies this
      ensures Outcome(State(), threw) == Model.RequestDiagnostics(old(State()), limit, id)
    {
      if phase != Connected {
        return true;
      }
      threw := false;
      ghost var before := requests;
      requests := requests[id := PendingRequest(BoundedLimit(limit), [])];
      var failedToSend := SendSecure(DiagnosticsRequest(id, BoundedLimit(limit)));
      if failedToSend {
        RejectRequest(id);
        assert requests == before - {id};
      }
    }

    method RequestTimeout(id: nat)
      modifies this`requests, this`rejected
      ensures State() == Model.RequestTimeout(old(State()), id)
    {
      if id in requests {
        RejectRequest(id);
      }
    }

    /** `local` is what the provider returns for the limit. */
    method HandleDiagnosticsRequest(id: nat, limit: nat, local: seq<DiagnosticRecord>) returns (threw: bool)
      modifies this
      ensures Outcome(State(), threw) == Model.HandleDiagnosticsRequest(old(State()), id, limit, local)
    {
      if phase != Connected {
        return true;
      }
      var records := LastRecords(local, limit);
      if |records| == 0 {
        threw := SendSecure(DiagnosticsBatch(id, [], true));
        return;
      }
      threw := false;
      var offset := 0;
      while offset < |records|
        invariant 0 <= offset <= |records|
        invariant SendBatches(State(), id, records, offset) == SendBatches(old(State()), id, records, 0)
        decreases |records| - offset
      {
        var end := if offset + BATCH_RECORD_COUNT < |records| then offset + BATCH_RECORD_COUNT else |records|;
        threw := SendSecure(DiagnosticsBatch(id, records[offset..end], end >= |records|));
        if threw {
          return;
        }
        offset := end;
      }
    }

    method HandleDiagnosticsBatch(id: nat, records: seq<DiagnosticRecord>, complete: bool) returns (threw: bool)
      modifies this`requests, this`resolved
      ensures Outcome(State(), threw) == Model.HandleDiagnosticsBatch(old(State()), id, records, complete)
    {
      if id !in requests {
        return false;
      }
      ghost var before := requests;
      var pending := requests[id];
      pending := pending.(records := pending.records + records);
      requests := requests[id := pending];
      if |pending.records| > pending.limit {
        return true;
      }
      if complete {
        requests := requests - {id};
        assert requests == before - {id};
        resolved := resolved[id := pending.records];
      }
      threw := false;
    }

    method SendMediaSignal(signal: Signal) returns (threw: bool)
      modifies this
      ensures Outcome(State(), threw) == Model.SendMediaSignal(old(State()), signal)
    {
      if phase != Connected {
        return true;
      }
      threw := SendSecure(MediaSignal(signal));
    }

    method HandleMediaSignal(signal: Signal) returns (threw: bool)
      modifies this`signals
      ensures Outcome(State(), threw) == Model.HandleMediaSignal(old(State()), signal)
    {
      if phase != Connected {
        return true;
      }
      signals := signals + [signal];
      threw := false;
    }

    // ---------- health ----------

    method HandlePing(id: nat) returns (threw: bool)
      modifies this
      ensures Outcome(State(), threw) == Model.HandlePing(old(State()), id)
    {
      if phase != Connected && phase != AwaitingConsent {
        return true;
      }
      threw := SendSecure(Pong(id));
    }

    method KeepAliveTick(now: int, pingId: nat) returns (threw: bool)
      modifies this
      ensures Outcome(State(), threw) == Model.KeepAliveTick(old(State()), now, pingId)
    {
      var timeout := if phase == Connected then CONNECTION_TIMEOUT_MS else PAIRING_TIMEOUT_MS;
      if now - lastSecureAt > timeout {
        CloseWithError(false);
        return false;
      }
      pings := pings + {pingId};
      threw := SendSecure(Ping(pingId));
    }

    // ---------- dispatch ----------

    method HandleSecureMessage(message: Message, around: Surroundings) returns (threw: bool)
      modifies this
      ensures Outcome(State(), threw) == HandleSecure(old(State()), message, around)
    {
      threw := false;
      match message
      case Ready => threw := HandleReady(around.now, around.promptId);
      case ReadyAcknowledged => threw := HandleReadyAcknowledged(around.now, around.promptId);
      case ConsentDecision(accepted) => threw := HandleConsentDecision(accepted, around.now);
      case Ping(id) => threw := HandlePing(id);
      case Pong(id) => pings := pings - {id};
      case ReversalRequest(id) => threw := HandleReversalRequest(id, around.promptId);
      case ReversalDecision(id, accepted) => threw := HandleReversalDecision(id, accepted);
      case Disconnect => CloseWithError(true);
      case ProtocolError => CloseWithError(false);
      case DiagnosticsRequest(id, limit) => threw := HandleDiagnosticsRequest(id, limit, around.local);
      case DiagnosticsBatch(id, records, complete) => threw := HandleDiagnosticsBatch(id, records, complete);
      case MediaSignal(signal) => threw := HandleMediaSignal(signal);
    }

    method HandleEnvelope(envelope: Envelope, around: Surroundings) returns (threw: bool)
      modifies this
      ensures Outcome(State(), threw) == Model.HandleEnvelope(old(State()), envelope, around)
    {
      if cipher.None? {
        return true;
      }
      lastSecureAt := around.now;
      var message := Opened(cipher.value, envelope);
      if message.None? {
        return true;
      }
      cipher := Some(cipher.value.(received := envelope.counter));
      threw := HandleSecureMessage(message.value, around);
    }

    method Dispatch(frame: Wire, around: Surroundings) returns (threw: bool)
      modifies this
      ensures Outcome(State(), threw) == Model.Dispatch(old(State()), frame, around)
    {
      threw := true;
      if phase == AwaitingClientHello {
        if frame.ClientHelloFrame? {
          threw := HandleClientHello(frame.clientHello, around.trust);
        }
      } else if phase == AwaitingServerHello {
        if frame.ServerHelloFrame? {
          threw := HandleServerHello(frame.serverHello);
        }
      } else if frame.SecureFrame? {
        threw := HandleEnvelope(frame.envelope, around);
      }
    }

    /** Whatever is thrown while a frame is handled closes the session. */
    method HandleWireMessage(frame: Wire, around: Surroundings)
      modifies this
      ensures State() == Model.HandleWireMessage(old(State()), frame, around)
    {
      var threw := Dispatch(frame, around);
      if threw {
        CloseWithError(false);
      }
    }
  }
}
