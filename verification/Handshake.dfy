/**
 The messages of the three-way handshake: how each side builds and checks the signed
 transcripts.  Signing, key derivation and key exchange are arbitrary functions; what an
 honest run needs of them is the predicate Honest.  JSON and the encryption of the confirm
 are left out: messages are passed as records.
 */
module Handshake {
  import opened Base64Url

  const KEY_SIZE := 32
  const SIGNATURE_SIZE := 64
  const CHALLENGE_SIZE := 32   // what both sides generate; neither checks what it receives

  datatype Crypto = Crypto(
    publicOf: Bytes -> Bytes,                    // X25519 public key of a private key
    verifyKeyOf: Bytes -> Bytes,                 // Ed25519 verify key of a signing key
    sign: (Bytes, Bytes) -> Bytes,
    verifies: (Bytes, Bytes, Bytes) -> bool,     // key, message, signature
    exchange: (Bytes, Bytes) -> Bytes)           // private key, public key

  /** Signatures verify under the matching key, and both ends of an exchange agree. */
  ghost predicate Honest(cr: Crypto) {
    && (forall p :: |cr.publicOf(p)| == KEY_SIZE)
    && (forall k, m :: |cr.sign(k, m)| == SIGNATURE_SIZE && cr.verifies(cr.verifyKeyOf(k), m, cr.sign(k, m)))
    && (forall p, q :: cr.exchange(p, cr.publicOf(q)) == cr.exchange(q, cr.publicOf(p)))
  }

  /** BadSignature is the exception the callers handle; Invalid stands for ValueError and its kin. */
  datatype Verdict = Accepted | BadSignature | Invalid

  datatype Hello = Hello(pub: string, challenge: string)

  datatype ServerAuth = ServerAuth(pub: string, challenge: string, signature: string)

  datatype Confirm = Confirm(signature: string)

  /** What a check yields: the peer's key and challenge, or a failure. */
  datatype Peer = Peer(pub: Bytes, challenge: Bytes) | Refused(why: Verdict)

  // ── Building ───────────────────────────────────────────────────────────

  function MakeHello(pub: Bytes, challenge: Bytes): Hello {
    Hello(B64Enc(pub), B64Enc(challenge))
  }

  function AuthTranscript(clientPub: Bytes, clientChallenge: Bytes, serverPub: Bytes, serverChallenge: Bytes): Bytes {
    clientPub + clientChallenge + serverPub + serverChallenge
  }

  function MakeServerAuth(cr: Crypto, clientPub: Bytes, clientChallenge: Bytes, serverPub: Bytes,
                          serverChallenge: Bytes, signingKey: Bytes): ServerAuth
  {
    var signed := AuthTranscript(clientPub, clientChallenge, serverPub, serverChallenge);
    ServerAuth(B64Enc(serverPub), B64Enc(serverChallenge), B64Enc(cr.sign(signingKey, signed)))
  }

  function ConfirmTranscript(serverChallenge: Bytes, clientChallenge: Bytes, serverPub: Bytes, clientPub: Bytes): Bytes
  {
    serverChallenge + clientChallenge + serverPub + clientPub
  }

  function MakeConfirm(cr: Crypto, serverChallenge: Bytes, clientChallenge: Bytes, serverPub: Bytes, clientPub: Bytes,
                       signingKey: Bytes): Confirm
  {
    Confirm(B64Enc(cr.sign(signingKey, ConfirmTranscript(serverChallenge, clientChallenge, serverPub, clientPub))))
  }

  // ── Checking ───────────────────────────────────────────────────────────

  /** VerifyKey.verify: a signature of the wrong size is an error of its own. */
  function Check(cr: Crypto, key: Bytes, msg: Bytes, sig: Bytes): Verdict {
    if |sig| != SIGNATURE_SIZE then Invalid else if cr.verifies(key, msg, sig) then Accepted else BadSignature
  }

  /** How the server reads a hello; PublicKey() insists on the key size. */
  function ReadHello(msg: Hello): Peer {
    match (B64Dec(msg.pub), B64Dec(msg.challenge))
    case (Data(pub), Data(challenge)) => if |pub| == KEY_SIZE then Peer(pub, challenge) else Refused(Invalid)
    case _ => Refused(Invalid)
  }

  function VerifyServerAuth(cr: Crypto, msg: ServerAuth, verifyKey: Bytes, clientPub: Bytes,
                            clientChallenge: Bytes): Peer
  {
    match (B64Dec(msg.pub), B64Dec(msg.challenge), B64Dec(msg.signature))
    case (Data(pub), Data(challenge), Data(sig)) =>
      var verdict := Check(cr, verifyKey, AuthTranscript(clientPub, clientChallenge, pub, challenge), sig);
      if verdict != Accepted then Refused(verdict)
      else if |pub| == KEY_SIZE then Peer(pub, challenge) else Refused(Invalid)
    case _ => Refused(Invalid)
  }

  /** The outcome of verify_client_confirm, told from the set of authorized keys alone. */
  ghost function ConfirmVerdict(cr: Crypto, msg: Confirm, authorized: set<Bytes>, signed: Bytes): Verdict {
    match B64Dec(msg.signature)
    case Failure => Invalid
    case Data(sig) =>
      if authorized == {} then BadSignature
      else if |sig| != SIGNATURE_SIZE then Invalid
      else if exists vk :: vk in authorized && cr.verifies(vk, signed, sig) then Accepted
      else BadSignature
  }

  function Elements(keys: seq<Bytes>): set<Bytes> {
    set k | k in keys
  }

  /** The loop over the authorized keys, in whatever order the set yields them. */
  method VerifyConfirm(cr: Crypto, msg: Confirm, keys: seq<Bytes>, serverChallenge: Bytes, clientChallenge: Bytes,
                       serverPub: Bytes, clientPub: Bytes) returns (r: Verdict)
    ensures var signed := ConfirmTranscript(serverChallenge, clientChallenge, serverPub, clientPub);
      r == ConfirmVerdict(cr, msg, Elements(keys), signed)
    ensures var (d, signed) := (B64Dec(msg.signature), serverChallenge + clientChallenge + serverPub + clientPub);
      && (r == Invalid <==> d == Failure || (keys != [] && |d.data| != 64))
      && (r == Accepted <==> d != Failure && |d.data| == 64 && exists k :: k in keys && cr.verifies(k, signed, d.data))
  {
    var signed := ConfirmTranscript(serverChallenge, clientChallenge, serverPub, clientPub);
    var sig := B64Dec(msg.signature);
    if sig == Failure {
      return Invalid;
    }
    ghost var authorized := Elements(keys);
    for i := 0 to |keys|
      invariant forall j :: 0 <= j < i ==> Check(cr, keys[j], signed, sig.data) == BadSignature
    {
      assert keys[i] in authorized;
      var verdict := Check(cr, keys[i], signed, sig.data);
      if verdict != BadSignature {
        return verdict;
      }
    }
    assert authorized != {} ==> |keys| > 0;
    assert forall k :: k in keys ==> Check(cr, k, signed, sig.data) == BadSignature;
    assert keys != [] ==> keys[0] in keys;
    return BadSignature;
  }

  // ── Agreement ──────────────────────────────────────────────────────────

  lemma HelloIsRead(pub: Bytes, challenge: Bytes)
    ensures ReadHello(MakeHello(pub, challenge)) == if |pub| == KEY_SIZE then Peer(pub, challenge) else Refused(Invalid)
  {
    RoundTrip(pub);
    RoundTrip(challenge);
  }

  /** The client rebuilds the transcript the server signed. */
  lemma ServerAuthIsAccepted(cr: Crypto, clientPub: Bytes, clientChallenge: Bytes, serverPriv: Bytes,
                             serverChallenge: Bytes, signingKey: Bytes)
    requires Honest(cr)
    ensures
      var auth := MakeServerAuth(cr, clientPub, clientChallenge, cr.publicOf(serverPriv), serverChallenge, signingKey);
      VerifyServerAuth(cr, auth, cr.verifyKeyOf(signingKey), clientPub, clientChallenge)
      == Peer(cr.publicOf(serverPriv), serverChallenge)
  {
    var serverPub := cr.publicOf(serverPriv);
    var signed := AuthTranscript(clientPub, clientChallenge, serverPub, serverChallenge);
    RoundTrip(serverPub);
    RoundTrip(serverChallenge);
    RoundTrip(cr.sign(signingKey, signed));
  }

  /** The server rebuilds the transcript the client signed and accepts it, whatever else is authorized. */
  lemma ConfirmIsAccepted(cr: Crypto, serverChallenge: Bytes, clientChallenge: Bytes, serverPub: Bytes,
                          clientPub: Bytes, signingKey: Bytes, authorized: set<Bytes>)
    requires Honest(cr) && cr.verifyKeyOf(signingKey) in authorized
    ensures
      var confirm := MakeConfirm(cr, serverChallenge, clientChallenge, serverPub, clientPub, signingKey);
      ConfirmVerdict(cr, confirm, authorized, ConfirmTranscript(serverChallenge, clientChallenge, serverPub, clientPub))
      == Accepted
  {
    RoundTrip(cr.sign(signingKey, ConfirmTranscript(serverChallenge, clientChallenge, serverPub, clientPub)));
  }

  /**
   A whole honest run.  Each side works on what it decoded from the other: the values agree,
   both checks accept, and the two session keys are the same.
   */
  lemma HonestRunAgrees(cr: Crypto, clientPriv: Bytes, serverPriv: Bytes, clientChallenge: Bytes,
                        serverChallenge: Bytes, clientKey: Bytes, serverKey: Bytes, authorized: set<Bytes>)
    requires Honest(cr) && cr.verifyKeyOf(clientKey) in authorized
    ensures
      var clientPub := cr.publicOf(clientPriv);
      var serverPub := cr.publicOf(serverPriv);
      var atServer := ReadHello(MakeHello(clientPub, clientChallenge));
      && atServer == Peer(clientPub, clientChallenge)
      && var auth := MakeServerAuth(cr, atServer.pub, atServer.challenge, serverPub, serverChallenge, serverKey);
      var atClient := VerifyServerAuth(cr, auth, cr.verifyKeyOf(serverKey), clientPub, clientChallenge);
      && atClient == Peer(serverPub, serverChallenge)
      && var confirm := MakeConfirm(cr, atClient.challenge, clientChallenge, atClient.pub, clientPub, clientKey);
      && var signed := ConfirmTranscript(serverChallenge, atServer.challenge, serverPub, atServer.pub);
      && ConfirmVerdict(cr, confirm, authorized, signed) == Accepted
      && cr.exchange(clientPriv, atClient.pub) == cr.exchange(serverPriv, atServer.pub)
  {
    var (clientPub, serverPub) := (cr.publicOf(clientPriv), cr.publicOf(serverPriv));
    HelloIsRead(clientPub, clientChallenge);
    ServerAuthIsAccepted(cr, clientPub, clientChallenge, serverPriv, serverChallenge, serverKey);
    ConfirmIsAccepted(cr, serverChallenge, clientChallenge, serverPub, clientPub, clientKey, authorized);
  }

  // ── What acceptance binds ──────────────────────────────────────────────

  /** For a given hello, one signed transcript vouches for one key and one challenge only. */
  lemma AuthTranscriptBinds(clientPub: Bytes, clientChallenge: Bytes, p: Bytes, c: Bytes, q: Bytes, d: Bytes)
    requires |p| == KEY_SIZE && |q| == KEY_SIZE
    requires AuthTranscript(clientPub, clientChallenge, p, c) == AuthTranscript(clientPub, clientChallenge, q, d)
    ensures p == q && c == d
  {
    var head := clientPub + clientChallenge;
    var t := AuthTranscript(clientPub, clientChallenge, p, c);
    assert t == head + (p + c) && t == head + (q + d);
    assert t[|head|..] == p + c && t[|head|..] == q + d;
    assert p == (p + c)[..KEY_SIZE] && q == (q + d)[..KEY_SIZE];
    assert c == (p + c)[KEY_SIZE..] && d == (q + d)[KEY_SIZE..];
  }

  /** Both transcripts contain their four parts in the order the messages document. */
  lemma TranscriptSlices(a: Bytes, b: Bytes, c: Bytes, d: Bytes)
    ensures forall t :: t == AuthTranscript(a, b, c, d) || t == ConfirmTranscript(a, b, c, d) ==>
      && |t| == |a| + |b| + |c| + |d|
      && t[..|a|] == a && t[|a|..|a| + |b|] == b
      && t[|a| + |b|..|a| + |b| + |c|] == c && t[|a| + |b| + |c|..] == d
  {
  }

  /** Nothing in a transcript marks where a challenge ends: these two are the same bytes. */
  lemma TranscriptsCoincide(cp: Bytes, cc: Bytes, x: Bytes, q: Bytes, d: Bytes)
    ensures AuthTranscript(cp, cc + x, q, d) == AuthTranscript(cp, cc, x, q + d)
  {
  }

  /** Equal transcripts stand for the same run if and only if the server challenges have the same length. */
  lemma TranscriptsBindExactly(cp: Bytes, cc: Bytes, p: Bytes, c: Bytes, cp': Bytes, cc': Bytes, q: Bytes, d: Bytes)
    requires |cp| == KEY_SIZE && |cp'| == KEY_SIZE && |p| == KEY_SIZE && |q| == KEY_SIZE
    requires AuthTranscript(cp, cc, p, c) == AuthTranscript(cp', cc', q, d)
    ensures cp == cp' && cc == cc' && p == q && c == d <==> |c| == |d|
  {
    if |c| == |d| {
      var t := AuthTranscript(cp, cc, p, c);
      var k := KEY_SIZE + |cc|;
      assert t[..KEY_SIZE] == cp && t[..KEY_SIZE] == cp';
      assert t[KEY_SIZE..k] == cc && t[KEY_SIZE..k] == cc';
      AuthTranscriptBinds(cp, cc, p, c, q, d);
    }
  }

  /** What an honest server has answered. */
  datatype ServerRun = ServerRun(clientPub: Bytes, clientChallenge: Bytes, pub: Bytes, challenge: Bytes)

  function RunTranscript(run: ServerRun): Bytes {
    AuthTranscript(run.clientPub, run.clientChallenge, run.pub, run.challenge)
  }

  /** Only transcripts of these runs verify under the pinned key; the server's challenges have the usual size. */
  ghost predicate SignedOnly(cr: Crypto, verifyKey: Bytes, runs: set<ServerRun>) {
    && (forall run :: run in runs ==>
          |run.clientPub| == KEY_SIZE && |run.pub| == KEY_SIZE && |run.challenge| == CHALLENGE_SIZE)
    && (forall m, sig :: cr.verifies(verifyKey, m, sig) ==> exists run :: run in runs && m == RunTranscript(run))
  }

  /**
   If only the server's runs verify under the pinned key: what the client accepts is the key and
   challenge of a run on its own hello if and only if the accepted challenge has the usual size,
   whatever hellos the server has answered.  The client can check that; verify_server_auth does not.
   */
  lemma AcceptedAuthIsOfOwnRun(cr: Crypto, msg: ServerAuth, verifyKey: Bytes, clientPub: Bytes, clientChallenge: Bytes,
                               runs: set<ServerRun>)
    requires |clientPub| == KEY_SIZE && SignedOnly(cr, verifyKey, runs)
    ensures var peer := VerifyServerAuth(cr, msg, verifyKey, clientPub, clientChallenge);
      peer.Peer? ==>
        var own := ServerRun(clientPub, clientChallenge, peer.pub, peer.challenge);
        own in runs <==> |peer.challenge| == CHALLENGE_SIZE
  {
    var peer := VerifyServerAuth(cr, msg, verifyKey, clientPub, clientChallenge);
    if peer.Peer? {
      var signed := AuthTranscript(clientPub, clientChallenge, peer.pub, peer.challenge);
      var run :| run in runs && signed == RunTranscript(run);
      TranscriptsBindExactly(clientPub, clientChallenge, peer.pub, peer.challenge,
                             run.clientPub, run.clientChallenge, run.pub, run.challenge);
    }
  }

  /**
   Without that check the binding fails, for every hello and every key-sized x: the answer of an
   honest server to the hello with challenge cc + x, read as an answer to the hello with challenge
   cc, is accepted with key x.
   */
  lemma AuthOfOtherHelloIsAccepted(cr: Crypto, cp: Bytes, cc: Bytes, x: Bytes, serverPriv: Bytes, d: Bytes,
                                   signingKey: Bytes)
    requires Honest(cr) && |cp| == KEY_SIZE && |x| == KEY_SIZE
    ensures
      var q := cr.publicOf(serverPriv);
      var auth := MakeServerAuth(cr, cp, cc + x, q, d, signingKey);
      VerifyServerAuth(cr, ServerAuth(B64Enc(x), B64Enc(q + d), auth.signature), cr.verifyKeyOf(signingKey), cp, cc)
      == Peer(x, q + d)
  {
    var q := cr.publicOf(serverPriv);
    TranscriptsCoincide(cp, cc, x, q, d);
    RoundTrip(x);
    RoundTrip(q + d);
    RoundTrip(cr.sign(signingKey, AuthTranscript(cp, cc + x, q, d)));
  }

  // ── What an accepted confirm binds ─────────────────────────────────────

  /** A session as the client closed it. */
  datatype ClientRun = ClientRun(serverChallenge: Bytes, clientChallenge: Bytes, serverPub: Bytes, clientPub: Bytes)

  function ClientTranscript(run: ClientRun): Bytes {
    ConfirmTranscript(run.serverChallenge, run.clientChallenge, run.serverPub, run.clientPub)
  }

  predicate KeySized(run: ClientRun) {
    |run.serverPub| == KEY_SIZE && |run.clientPub| == KEY_SIZE
  }

  /** Equal confirm transcripts stand for the same session if and only if the server challenges have the same length. */
  lemma ConfirmsBindExactly(x: ClientRun, y: ClientRun)
    requires KeySized(x) && KeySized(y) && ClientTranscript(x) == ClientTranscript(y)
    ensures x == y <==> |x.serverChallenge| == |y.serverChallenge|
  {
    TranscriptSlices(x.serverChallenge, x.clientChallenge, x.serverPub, x.clientPub);
    TranscriptSlices(y.serverChallenge, y.clientChallenge, y.serverPub, y.clientPub);
  }

  /** And those lengths can differ: bytes may pass from one challenge to the other. */
  lemma ConfirmsCoincide(sc: Bytes, x: Bytes, cc: Bytes, sp: Bytes, cp: Bytes)
    ensures ConfirmTranscript(sc + x, cc, sp, cp) == ConfirmTranscript(sc, x + cc, sp, cp)
  {
  }

  /** Only transcripts of these sessions verify under an authorized key; the clients' challenges have the usual size. */
  ghost predicate ConfirmedOnly(cr: Crypto, authorized: set<Bytes>, runs: set<ClientRun>) {
    && (forall run :: run in runs ==> KeySized(run) && |run.clientChallenge| == CHALLENGE_SIZE)
    && (forall vk, m, sig :: vk in authorized && cr.verifies(vk, m, sig) ==>
          exists run :: run in runs && m == ClientTranscript(run))
  }

  /**
   If only the clients' sessions verify under the authorized keys: an accepted confirm is of a
   session on this very server challenge, server key and hello if and only if the challenge of the
   hello has the usual size.  The server can check that when it reads the hello; it does not.
   */
  lemma AcceptedConfirmIsOfThisSession(cr: Crypto, msg: Confirm, authorized: set<Bytes>, runs: set<ClientRun>,
                                       here: ClientRun)
    requires ConfirmedOnly(cr, authorized, runs) && KeySized(here)
    requires ConfirmVerdict(cr, msg, authorized, ClientTranscript(here)) == Accepted
    ensures here in runs <==> |here.clientChallenge| == CHALLENGE_SIZE
  {
    var sig := B64Dec(msg.signature).data;
    var vk :| vk in authorized && cr.verifies(vk, ClientTranscript(here), sig);
    var run :| run in runs && ClientTranscript(here) == ClientTranscript(run);
    ConfirmsBindExactly(here, run);
    TranscriptSlices(here.serverChallenge, here.clientChallenge, here.serverPub, here.clientPub);
    TranscriptSlices(run.serverChallenge, run.clientChallenge, run.serverPub, run.clientPub);
  }

  /** Without that check: a confirm on server challenge sc + x and hello challenge cc is accepted for sc and x + cc. */
  lemma ConfirmOfOtherSessionIsAccepted(cr: Crypto, sc: Bytes, x: Bytes, cc: Bytes, sp: Bytes, cp: Bytes,
                                        signingKey: Bytes, authorized: set<Bytes>)
    requires Honest(cr) && cr.verifyKeyOf(signingKey) in authorized
    ensures
      var confirm := MakeConfirm(cr, sc + x, cc, sp, cp, signingKey);
      ConfirmVerdict(cr, confirm, authorized, ConfirmTranscript(sc, x + cc, sp, cp)) == Accepted
  {
    ConfirmsCoincide(sc, x, cc, sp, cp);
    ConfirmIsAccepted(cr, sc + x, cc, sp, cp, signingKey, authorized);
  }

  /** VerifyKey.verify and the checks around it, told by kind of failure. */
  lemma AuthRefusals(cr: Crypto, msg: ServerAuth, verifyKey: Bytes, clientPub: Bytes, clientChallenge: Bytes,
                     pub: Bytes, challenge: Bytes, sig: Bytes)
    requires B64Dec(msg.pub) == Data(pub) && B64Dec(msg.challenge) == Data(challenge)
    requires B64Dec(msg.signature) == Data(sig)
    ensures var (r, ok) := (VerifyServerAuth(cr, msg, verifyKey, clientPub, clientChallenge),
                            cr.verifies(verifyKey, clientPub + clientChallenge + pub + challenge, sig));
      && (r == Refused(BadSignature) <==> |sig| == 64 && !ok)
      && (r == Peer(pub, challenge) <==> |sig| == 64 && ok && |pub| == 32)
  {
  }
}
