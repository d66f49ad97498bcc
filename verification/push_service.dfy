/**
 * Outbound push notifications: the messaging client, initialised only when
 * a service-account credential is configured (the inline one preferred) and
 * then kept, and the send with its default title and body.
 */
module PushService {
  import opened Shared

  /** The FIREBASE_SERVICE_ACCOUNT_PATH and FIREBASE_SERVICE_ACCOUNT_JSON settings. */
  datatype FirebaseEnv = FirebaseEnv(path: Option<string>, json: Option<string>)

  /** Where the service-account credential comes from: inline base64 JSON, or a file. */
  datatype Credential = InlineJson(encoded: string) | KeyFile(path: string)

  /** An initialised messaging client and the credential it was initialised with. */
  datatype Messaging = Messaging(credential: Credential)

  predicate Configured(env: FirebaseEnv) {
    Truthy(env.path) || Truthy(env.json)
  }

  /**
   * The messaging client for a call, given the one kept from earlier calls.
   * `loadOk` says whether loading the library, reading the credential and
   * initialising succeed. The kept client after the call is always the result.
   */
  function GetMessaging(cached: Option<Messaging>, env: FirebaseEnv, loadOk: bool): (r: Option<Messaging>)
    ensures cached.Some? ==> r == cached
    ensures cached.None? ==> (r.Some? <==> Configured(env) && loadOk)
    ensures cached.None? && r.Some? && Truthy(env.json) ==> r.value.credential == InlineJson(env.json.value)
    ensures cached.None? && r.Some? && !Truthy(env.json) ==> r.value.credential == KeyFile(env.path.value)
  {
    if cached.Some? then cached
    else if !Configured(env) || !loadOk then None
    else if Truthy(env.json) then Some(Messaging(InlineJson(env.json.value)))
    else Some(Messaging(KeyFile(env.path.value)))
  }

  /** Once a client exists, every later call returns it, whatever the settings then say. */
  lemma MessagingIsKept(cached: Option<Messaging>, env: FirebaseEnv, loadOk: bool, later: FirebaseEnv, laterOk: bool)
    requires GetMessaging(cached, env, loadOk).Some?
    ensures var m := GetMessaging(cached, env, loadOk);
            GetMessaging(m, later, laterOk) == m
  {
  }

  datatype Notification = Notification(title: Option<string>, body: Option<string>)

  /** The message handed to the messaging client. */
  datatype PushMessage = PushMessage(token: string, title: string, body: string, data: map<string, string>)

  datatype PushOutcome = PushOutcome(sent: bool, attempted: Option<PushMessage>, cache: Option<Messaging>)

  const DefaultTitle: string := "New enrollment"

  /**
   * Send one notification. The client is obtained first, so a configured
   * client is initialised and kept even when the token is missing. Nothing is
   * sent without a client or a token; otherwise the answer is whether delivery
   * (`delivered`) succeeded. A missing or empty title or body takes its default,
   * and the data is passed through unchanged.
   */
  function SendPush(cached: Option<Messaging>, env: FirebaseEnv, loadOk: bool, token: Option<string>,
                    note: Notification, data: map<string, string>, delivered: bool): (r: PushOutcome)
    ensures r.cache == GetMessaging(cached, env, loadOk)
    ensures r.attempted.Some? <==> r.cache.Some? && Truthy(token)
    ensures r.sent <==> r.attempted.Some? && delivered
    ensures r.attempted.Some? ==>
              var m := r.attempted.value;
              && m.token == token.value && m.data == data
              && (Truthy(note.title) ==> m.title == note.title.value)
              && (!Truthy(note.title) ==> m.title == DefaultTitle)
              && (Truthy(note.body) ==> m.body == note.body.value)
              && (!Truthy(note.body) ==> m.body == "")
  {
    var messaging := GetMessaging(cached, env, loadOk);
    if messaging.None? || !Truthy(token) then PushOutcome(false, None, messaging)
    else
      var title := if Truthy(note.title) then note.title.value else DefaultTitle;
      var body := if Truthy(note.body) then note.body.value else "";
      PushOutcome(delivered, Some(PushMessage(token.value, title, body, data)), messaging)
  }

  /**
   * The client one send obtains is the client every later send uses, whatever
   * the settings then say; a later send goes out exactly when it has a token.
   */
  lemma ClientKeptAcrossSends(cached: Option<Messaging>, env: FirebaseEnv, loadOk: bool, token: Option<string>,
                              note: Notification, data: map<string, string>, delivered: bool,
                              later: FirebaseEnv, laterOk: bool, laterToken: Option<string>,
                              laterNote: Notification, laterData: map<string, string>, laterDelivered: bool)
    requires SendPush(cached, env, loadOk, token, note, data, delivered).cache.Some?
    ensures var first := SendPush(cached, env, loadOk, token, note, data, delivered);
            var second := SendPush(first.cache, later, laterOk, laterToken, laterNote, laterData, laterDelivered);
            && second.cache == first.cache
            && (second.attempted.Some? <==> Truthy(laterToken))
            && (second.sent <==> Truthy(laterToken) && laterDelivered)
  {
  }
}
