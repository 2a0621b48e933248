/**
 * The chat page: a three-step sign-in (register, one-time code, chat), the message
 * list with on-demand decryption, and the persisted identity slot.
 *
 * `Page` is the page's state as a value and the `After…` functions say what each
 * handler does to it; class `Home` holds the same state in mutable fields and its
 * handlers are proved to follow those functions. Every call to the backend is
 * recorded in `outbox`, and its outcome is a parameter of the handler.
 */
module ChatPage {
  import opened Wrappers
  import opened Strings
  import opened ChatTypes

  /** The code input accepts at most this many characters. */
  const OtpMaxLength := 6

  /** The text shown for a message the user has just sent. */
  const Placeholder := "[Terenkripsi]"

  datatype Step = Register | Otp | Chat

  datatype SendResponse = SendResponse(encryptDuration: Option<int>)

  datatype DecryptResponse = DecryptResponse(decrypted: Option<string>, duration: Option<int>)

  /** What the page sends out: HTTP calls to the backend and the push-channel emit. */
  datatype Request =
    | RegisterPost(email: string)
    | RequestOtpPost(email: string)
    | VerifyOtpPost(email: string, otp: string)
    | ListGet(email: string)
    | SendPost(email: string, text: string)
    | DecryptPost(email: string, ciphertext: string)
    | EmitNewMessage

  /** The page's state; `stored` is the browser's persisted identity slot. */
  datatype Page = Page(
    step: Step,
    user: Option<Identity>,
    email: string,
    otp: string,
    message: string,
    messages: seq<ChatMessage>,
    stored: Option<Identity>,
    outbox: seq<Request>)

  /**
   * What every handler keeps: the code input respects its length limit, the chat
   * view is only reached with a signed-in user, and a signed-in user is the one persisted.
   */
  predicate Valid(p: Page)
  {
    && |p.otp| <= OtpMaxLength
    && (p.step == Chat ==> p.user.Some?)
    && (p.user.Some? ==> p.stored == p.user)
  }

  /**
   * An entry still shown as ciphertext with the "Dekripsi" button: `!m.decrypted`, which
   * holds for an absent plaintext and for the empty string alike.
   */
  function IsLocked(m: ChatMessage): (locked: bool)
    ensures !locked <==> m.decrypted.Some? && |m.decrypted.value| > 0
  {
    m.decrypted.None? || m.decrypted == Some("")
  }

  /** The text an entry shows: its ciphertext while locked, otherwise its plaintext. */
  function ShownText(m: ChatMessage): (shown: string)
    ensures IsLocked(m) ==> shown == m.message
    ensures !IsLocked(m) ==> m.decrypted == Some(shown) && shown != []
  {
    if IsLocked(m) then m.message else m.decrypted.value
  }

  /** The name shown for an address: `email.split("@")[0]`. */
  function DisplayName(email: string): (name: string)
    ensures name <= email && '@' !in name
    ensures |name| < |email| ==> email[|name|] == '@'
  {
    FirstPiece(email, '@');
    Split(email, '@')[0]
  }

  /** The page as first rendered, before the startup effect runs. */
  function Initial(saved: Option<Identity>): (p: Page)
    ensures Valid(p)
  {
    Page(Register, None, "", "", "", [], saved, [])
  }

  /** The entry appended after a successful send; it has no plaintext. */
  function SentEntry(sender: string, encryptDuration: Option<int>): (m: ChatMessage)
    ensures m.sender == sender && m.message == Placeholder && m.encryptDuration == encryptDuration
    ensures m.decrypted.None? && IsLocked(m)
  {
    ChatMessage(sender, Placeholder, None, None, None, None, encryptDuration, None)
  }

  /** `loadMessages(target)`: fetch the list; a success replaces it wholesale, a failure keeps it. */
  function AfterLoad(p: Page, target: string, reply: Reply<seq<ChatMessage>>): (q: Page)
    ensures q.outbox == p.outbox + [ListGet(target)]
    ensures reply.Ok? ==> q.messages == reply.value
    ensures reply.Failed? ==> q.messages == p.messages
    ensures q.(messages := p.messages, outbox := p.outbox) == p
    ensures Valid(p) ==> Valid(q)
  {
    var fetched := if reply.Ok? then reply.value else p.messages;
    p.(messages := fetched, outbox := p.outbox + [ListGet(target)])
  }

  /** The startup effect: a persisted identity signs the page in and loads its messages. */
  function AfterRestore(p: Page, load: Reply<seq<ChatMessage>>): (q: Page)
    ensures p.stored.None? ==> q == p
    ensures p.stored.Some? ==>
      && q.user == p.stored && q.email == p.stored.value.email && q.step == Chat
      && q.outbox == p.outbox + [ListGet(p.stored.value.email)]
      && q.messages == (if load.Ok? then load.value else p.messages)
      && q.otp == p.otp && q.message == p.message && q.stored == p.stored
    ensures Valid(p) ==> Valid(q)
  {
    match p.stored
    case None => p
    case Some(id) => AfterLoad(p.(user := Some(id), email := id.email, step := Chat), id.email, load)
  }

  /**
   * `handleRegister`: nothing without an email; otherwise register, then request a code
   * whatever registration answered, and move to code entry only if that request succeeded.
   */
  function AfterRegister(p: Page, registration: Reply<()>, otpRequest: Reply<()>): (q: Page)
    ensures p.email == [] ==> q == p
    ensures p.email != [] ==>
      && q.outbox == p.outbox + [RegisterPost(p.email), RequestOtpPost(p.email)]
      && (q.step == Otp <==> otpRequest.Ok? || p.step == Otp)
      && (otpRequest.Failed? ==> q.step == p.step)
      && q.(step := p.step, outbox := p.outbox) == p
    ensures Valid(p) ==> Valid(q)
  {
    if p.email == [] then p
    else
      var sent := p.(outbox := p.outbox + [RegisterPost(p.email), RequestOtpPost(p.email)]);
      if otpRequest.Ok? then sent.(step := Otp) else sent
  }

  /**
   * `handleVerifyOtp`: nothing without a code (any non-empty code is sent); on success the
   * returned identity is both the user and the persisted one, the chat opens and its
   * messages are loaded; on failure only the request was made.
   */
  function AfterVerifyOtp(p: Page, verification: Reply<Identity>, load: Reply<seq<ChatMessage>>): (q: Page)
    ensures p.otp == [] ==> q == p
    ensures p.otp != [] && verification.Failed? ==>
      q == p.(outbox := p.outbox + [VerifyOtpPost(p.email, p.otp)])
    ensures p.otp != [] && verification.Ok? ==>
      && q.user == Some(verification.value) && q.stored == Some(verification.value)
      && q.step == Chat
      && q.outbox == p.outbox + [VerifyOtpPost(p.email, p.otp), ListGet(verification.value.email)]
      && q.messages == (if load.Ok? then load.value else p.messages)
      && q.email == p.email && q.otp == p.otp && q.message == p.message
    ensures Valid(p) ==> Valid(q)
  {
    if p.otp == [] then p
    else
      var sent := p.(outbox := p.outbox + [VerifyOtpPost(p.email, p.otp)]);
      match verification
      case Failed => sent
      case Ok(id) => AfterLoad(sent.(user := Some(id), stored := Some(id), step := Chat), id.email, load)
  }

  /**
   * `handleSend`: nothing without a user or with a whitespace-only input. Otherwise the
   * input is sent as typed; a success empties the input and appends exactly one entry,
   * the locked `SentEntry` of the user, then schedules the push emit; a failure puts the
   * input back.
   */
  function AfterSend(p: Page, sending: Reply<SendResponse>): (q: Page)
    ensures p.user.None? || IsBlank(p.message) ==> q == p
    ensures p.user.Some? && !IsBlank(p.message) && sending.Failed? ==>
      q == p.(outbox := p.outbox + [SendPost(p.user.value.email, p.message)])
    ensures p.user.Some? && !IsBlank(p.message) && sending.Ok? ==>
      && q.message == []
      && q.messages == p.messages + [SentEntry(p.user.value.email, sending.value.encryptDuration)]
      && q.outbox == p.outbox + [SendPost(p.user.value.email, p.message), EmitNewMessage]
      && q.(message := p.message, messages := p.messages, outbox := p.outbox) == p
    ensures Valid(p) ==> Valid(q)
  {
    if p.user.None? || Trim(p.message) == [] then p
    else
      var sender := p.user.value.email;
      var sent := p.(outbox := p.outbox + [SendPost(sender, p.message)]);
      match sending
      case Failed => sent
      case Ok(r) =>
        sent.(message := [], messages := p.messages + [SentEntry(sender, r.encryptDuration)],
              outbox := sent.outbox + [EmitNewMessage])
  }

  /**
   * `handleDecrypt(index)`: an index outside the list or a missing user throws before any
   * request and changes nothing. Otherwise the entry's ciphertext is sent; a success sets
   * only that entry's plaintext and duration, a failure leaves the list as it was.
   */
  function AfterDecrypt(p: Page, index: int, decryption: Reply<DecryptResponse>): (q: Page)
    ensures !(0 <= index < |p.messages|) || p.user.None? ==> q == p
    ensures |q.messages| == |p.messages|
    ensures forall j :: 0 <= j < |p.messages| && j != index ==> q.messages[j] == p.messages[j]
    ensures decryption.Failed? ==> q.messages == p.messages
    ensures 0 <= index < |p.messages| && p.user.Some? ==>
      && q.outbox == p.outbox + [DecryptPost(p.user.value.email, p.messages[index].message)]
      && q.(messages := p.messages, outbox := p.outbox) == p
    ensures 0 <= index < |p.messages| && p.user.Some? && decryption.Ok? ==>
      && q.messages[index].decrypted == decryption.value.decrypted
      && q.messages[index].decryptDuration == decryption.value.duration
      && q.messages[index].(decrypted := p.messages[index].decrypted,
                            decryptDuration := p.messages[index].decryptDuration) == p.messages[index]
      && (IsLocked(q.messages[index]) <==>
            decryption.value.decrypted.None? || decryption.value.decrypted == Some(""))
    ensures Valid(p) ==> Valid(q)
  {
    if !(0 <= index < |p.messages|) || p.user.None? then p
    else
      var m := p.messages[index];
      var sent := p.(outbox := p.outbox + [DecryptPost(p.user.value.email, m.message)]);
      match decryption
      case Failed => sent
      case Ok(r) =>
        sent.(messages := p.messages[index := m.(decrypted := r.decrypted, decryptDuration := r.duration)])
  }

  /** The push channel's "newMessage": reload only for a signed-in user with a non-empty email. */
  function AfterNewMessage(p: Page, load: Reply<seq<ChatMessage>>): (q: Page)
    ensures p.user.Some? && p.user.value.email != [] ==> q == AfterLoad(p, p.user.value.email, load)
    ensures p.user.None? || p.user.value.email == [] ==> q == p
    ensures Valid(p) ==> Valid(q)
  {
    if p.user.Some? && p.user.value.email != [] then AfterLoad(p, p.user.value.email, load) else p
  }

  /** The "Kembali" button: back to the email step, nothing else changes. */
  function AfterBack(p: Page): (q: Page)
    ensures q.step == Register && q.(step := p.step) == p
    ensures Valid(p) ==> Valid(q)
  {
    p.(step := Register)
  }

  /**
   * Sign-out: the persisted slot, the user, the email and the list are cleared and the
   * email step shown; the code and message inputs and the outbox are left as they were.
   */
  function AfterSignOut(p: Page): (q: Page)
    ensures q.stored.None? && q.user.None? && q.email == [] && q.messages == [] && q.step == Register
    ensures q.otp == p.otp && q.message == p.message && q.outbox == p.outbox
    ensures Valid(p) ==> Valid(q)
  {
    p.(stored := None, user := None, email := "", step := Register, messages := [])
  }

  function AfterEmailChange(p: Page, text: string): (q: Page)
    ensures q.email == text && q.(email := p.email) == p
    ensures Valid(p) ==> Valid(q)
  {
    p.(email := text)
  }

  /** Typing in the code input: the browser keeps at most `OtpMaxLength` characters. */
  function AfterOtpChange(p: Page, text: string): (q: Page)
    ensures |q.otp| <= OtpMaxLength && q.otp <= text
    ensures |text| <= OtpMaxLength ==> q.otp == text
    ensures q.(otp := p.otp) == p
    ensures Valid(p) ==> Valid(q)
  {
    p.(otp := text[..Min(|text|, OtpMaxLength)])
  }

  function AfterMessageChange(p: Page, text: string): (q: Page)
    ensures q.message == text && q.(message := p.message) == p
    ensures Valid(p) ==> Valid(q)
  {
    p.(message := text)
  }

  /** Everything that can happen to the page, with the backend's answers. */
  datatype Event =
    | Mounted(load: Reply<seq<ChatMessage>>)
    | EmailChanged(text: string)
    | OtpChanged(text: string)
    | MessageChanged(text: string)
    | RegisterClicked(registration: Reply<()>, otpRequest: Reply<()>)
    | VerifyClicked(verification: Reply<Identity>, load: Reply<seq<ChatMessage>>)
    | SendClicked(sending: Reply<SendResponse>)
    | DecryptClicked(index: int, decryption: Reply<DecryptResponse>)
    | NewMessageArrived(load: Reply<seq<ChatMessage>>)
    | BackClicked
    | SignOutClicked

  /**
   * Dispatches one event to its handler. Every handler keeps the invariant, only appends
   * to the outbox, and only verification and sign-out write the persisted slot.
   */
  function Next(p: Page, e: Event): (q: Page)
    ensures Valid(p) ==> Valid(q)
    ensures p.outbox <= q.outbox
    ensures !e.VerifyClicked? && !e.SignOutClicked? ==> q.stored == p.stored
  {
    match e
    case Mounted(load) => AfterRestore(p, load)
    case EmailChanged(text) => AfterEmailChange(p, text)
    case OtpChanged(text) => AfterOtpChange(p, text)
    case MessageChanged(text) => AfterMessageChange(p, text)
    case RegisterClicked(registration, otpRequest) => AfterRegister(p, registration, otpRequest)
    case VerifyClicked(verification, load) => AfterVerifyOtp(p, verification, load)
    case SendClicked(sending) => AfterSend(p, sending)
    case DecryptClicked(index, decryption) => AfterDecrypt(p, index, decryption)
    case NewMessageArrived(load) => AfterNewMessage(p, load)
    case BackClicked => AfterBack(p)
    case SignOutClicked => AfterSignOut(p)
  }

  /** The handlers run one at a time, in the order their events arrive. */
  function Run(p: Page, events: seq<Event>): (q: Page)
    ensures p.outbox <= q.outbox
    decreases |events|
  {
    if events == [] then p else Run(Next(p, events[0]), events[1..])
  }

  /** No sequence of events breaks the page's invariant. */
  lemma {:induction false} RunPreservesValid(p: Page, events: seq<Event>)
    requires Valid(p)
    ensures Valid(Run(p, events))
    decreases |events|
  {
    if events != [] {
      RunPreservesValid(Next(p, events[0]), events[1..]);
    }
  }

  /** Only code verification and sign-out touch the persisted identity slot. */
  lemma {:induction false} OnlySignInAndSignOutTouchStorage(p: Page, events: seq<Event>)
    requires forall i :: 0 <= i < |events| ==> !events[i].VerifyClicked? && !events[i].SignOutClicked?
    ensures Run(p, events).stored == p.stored
    decreases |events|
  {
    if events != [] {
      OnlySignInAndSignOutTouchStorage(Next(p, events[0]), events[1..]);
    }
  }

  /** After a successful verification, reloading the page signs the same user straight back in. */
  lemma ReloadAfterSignIn(p: Page, id: Identity, load: Reply<seq<ChatMessage>>, reload: Reply<seq<ChatMessage>>)
    requires p.otp != []
    ensures var r := AfterRestore(Initial(AfterVerifyOtp(p, Ok(id), load).stored), reload);
      && r.user == Some(id) && r.step == Chat && r.email == id.email
      && r.outbox == [ListGet(id.email)]
  {
  }

  /** After sign-out, reloading the page shows the email step and makes no request. */
  lemma ReloadAfterSignOut(p: Page, reload: Reply<seq<ChatMessage>>)
    ensures AfterRestore(Initial(AfterSignOut(p).stored), reload) == Initial(None)
  {
  }

  /**
   * Signing in as a@b.com with code 123456: the identity is the verified one, the chat is
   * shown, and exactly one list fetch, for that address, follows the verification.
   */
  lemma SignInScenario(load: Reply<seq<ChatMessage>>)
    ensures var events := [EmailChanged("a@b.com"), RegisterClicked(Ok(()), Ok(())),
                           OtpChanged("123456"), VerifyClicked(Ok(Identity("a@b.com")), load)];
      var p := Run(Initial(None), events);
      && p.user == Some(Identity("a@b.com")) && p.stored == p.user && p.step == Chat
      && p.outbox == [RegisterPost("a@b.com"), RequestOtpPost("a@b.com"),
                      VerifyOtpPost("a@b.com", "123456"), ListGet("a@b.com")]
  {
    var p0 := Initial(None);
    var p1 := AfterEmailChange(p0, "a@b.com");
    var p2 := AfterRegister(p1, Ok(()), Ok(()));
    var p3 := AfterOtpChange(p2, "123456");
    var p4 := AfterVerifyOtp(p3, Ok(Identity("a@b.com")), load);
    var events := [EmailChanged("a@b.com"), RegisterClicked(Ok(()), Ok(())),
                   OtpChanged("123456"), VerifyClicked(Ok(Identity("a@b.com")), load)];
    assert Run(p3, events[3..]) == p4;
    assert Run(p2, events[2..]) == Run(p3, events[3..]);
    assert Run(p1, events[1..]) == Run(p2, events[2..]);
    assert Run(p0, events) == Run(p1, events[1..]);
  }

  /** The page component, its state held in fields that the handlers update in place. */
  class Home {
    var step: Step
    var user: Option<Identity>
    var email: string
    var otp: string
    var message: string
    var messages: seq<ChatMessage>
    var stored: Option<Identity>
    var outbox: seq<Request>

    function State(): Page
      reads this
    {
      Page(step, user, email, otp, message, messages, stored, outbox)
    }

    constructor (saved: Option<Identity>)
      ensures State() == Initial(saved) && Valid(State())
    {
      step, user, email, otp, message, messages := Register, None, "", "", "", [];
      stored, outbox := saved, [];
    }

    method LoadMessages(target: string, reply: Reply<seq<ChatMessage>>)
      requires Valid(State())
      modifies this
      ensures State() == AfterLoad(old(State()), target, reply) && Valid(State())
    {
      outbox := outbox + [ListGet(target)];
      if reply.Ok? {
        messages := reply.value;
      }
    }

    /** The startup effect. */
    method Restore(load: Reply<seq<ChatMessage>>)
      requires Valid(State())
      modifies this
      ensures State() == AfterRestore(old(State()), load) && Valid(State())
    {
      if stored.Some? {
        var parsed := stored.value;
        user := Some(parsed);
        email := parsed.email;
        step := Chat;
        LoadMessages(parsed.email, load);
      }
    }

    method HandleRegister(registration: Reply<()>, otpRequest: Reply<()>)
      requires Valid(State())
      modifies this
      ensures State() == AfterRegister(old(State()), registration, otpRequest) && Valid(State())
    {
      if email == [] {
        return;
      }
      outbox := outbox + [RegisterPost(email)];
      outbox := outbox + [RequestOtpPost(email)];
      if otpRequest.Ok? {
        step := Otp;
      }
    }

    method HandleVerifyOtp(verification: Reply<Identity>, load: Reply<seq<ChatMessage>>)
      requires Valid(State())
      modifies this
      ensures State() == AfterVerifyOtp(old(State()), verification, load) && Valid(State())
    {
      if otp == [] {
        return;
      }
      outbox := outbox + [VerifyOtpPost(email, otp)];
      if verification.Ok? {
        var loggedInUser := verification.value;
        user := Some(loggedInUser);
        stored := Some(loggedInUser);
        step := Chat;
        LoadMessages(loggedInUser.email, load);
      }
    }

    method HandleSend(sending: Reply<SendResponse>)
      requires Valid(State())
      modifies this
      ensures State() == AfterSend(old(State()), sending) && Valid(State())
    {
      if user.None? || Trim(message) == [] {
        return;
      }
      var sender := user.value.email;
      var tempMessage := message;
      message := "";
      outbox := outbox + [SendPost(sender, tempMessage)];
      match sending
      case Ok(r) =>
        messages := messages + [SentEntry(sender, r.encryptDuration)];
        outbox := outbox + [EmitNewMessage];
      case Failed =>
        message := tempMessage;
    }

    method HandleDecrypt(index: int, decryption: Reply<DecryptResponse>)
      requires Valid(State())
      modifies this
      ensures State() == AfterDecrypt(old(State()), index, decryption) && Valid(State())
    {
      if !(0 <= index < |messages|) || user.None? {
        return;
      }
      var m := messages[index];
      outbox := outbox + [DecryptPost(user.value.email, m.message)];
      if decryption.Ok? {
        var newMessages := messages;
        newMessages := newMessages[index := m.(decrypted := decryption.value.decrypted,
                                               decryptDuration := decryption.value.duration)];
        messages := newMessages;
      }
    }

    method HandleNewMessage(load: Reply<seq<ChatMessage>>)
      requires Valid(State())
      modifies this
      ensures State() == AfterNewMessage(old(State()), load) && Valid(State())
    {
      if user.Some? && user.value.email != [] {
        LoadMessages(user.value.email, load);
      }
    }

    method Back()
      requires Valid(State())
      modifies this
      ensures State() == AfterBack(old(State())) && Valid(State())
    {
      step := Register;
    }

    method SignOut()
      requires Valid(State())
      modifies this
      ensures State() == AfterSignOut(old(State())) && Valid(State())
    {
      stored := None;
      user := None;
      email := "";
      step := Register;
      messages := [];
    }

    method HandleEmailChange(text: string)
      requires Valid(State())
      modifies this
      ensures State() == AfterEmailChange(old(State()), text) && Valid(State())
    {
      email := text;
    }

    method HandleOtpChange(text: string)
      requires Valid(State())
      modifies this
      ensures State() == AfterOtpChange(old(State()), text) && Valid(State())
    {
      otp := text[..Min(|text|, OtpMaxLength)];
    }

    method HandleMessageChange(text: string)
      requires Valid(State())
      modifies this
      ensures State() == AfterMessageChange(old(State()), text) && Valid(State())
    {
      message := text;
    }
  }
}
