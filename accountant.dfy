/** Guest accounts (src/accountant.rs): classification of a guest by
    balance, registration and update through the store, and the
    contact-directory callbacks that register new members. */
module Accountant {

  import opened Common
  import Core
  import Rows
  import S = Storage
  import opened WecomApi

  datatype Error = NotFound | Overdue(credit: real) | Internal(message: string)

  /** The `Display` text of an error. */
  function ErrorText(e: Error): string
  {
    match e
    case NotFound => "账户不存在"
    case Overdue(_) => "账户欠款"
    case Internal(s) => s
  }

  const URL_SIGNATURE_FAILED: string := "签名校验失败"
  const URL_DECRYPT_FAILED: string := "解密消息失败。"
  const BODY_PARSE_FAILED: string := "解析Body出错。"
  const EVENT_SIGNATURE_FAILED: string := "签名校验失败。数据可能被篡改。"
  const EVENT_DECRYPT_FAILED: string := "解密用户数据失败。"
  const EVENT_PARSE_FAILED: string := "解析xml失败。"
  const ADD_USER_FAILED: string := "新增用户失败。"
  const CREATE_USER_FAILED: string := "新建用户失败。用户名："
  const UPDATE_USER_FAILED: string := "更新用户失败。"

  /** The accountant's section of the configuration file. */
  datatype Config = Config(agentId: nat, token: string, key: string)

  /** Whether the signature the server sent matches the one computed over
      the given fields. */
  predicate Signed(crypto: CallbackCrypto, fields: seq<string>, signature: string)
  {
    crypto.generateSignature(fields) == signature
  }

  /** The user id a contact-change callback asks to register, or the error
      text of the first of its four checks that fails: body parsing, the
      signature, decryption and event parsing. */
  function CreationRequest(crypto: CallbackCrypto, xml: Xml, params: CallbackParams, body: string)
    : (r: Result<string, string>)
    ensures r.Ok? <==>
      && xml.body(body).Ok?
      && Signed(crypto, [params.timestamp, params.nonce, xml.body(body).value.encryptedStr], params.msgSignature)
      && crypto.decrypt(xml.body(body).value.encryptedStr).Ok?
      && xml.contactEvent(crypto.decrypt(xml.body(body).value.encryptedStr).value.text).Ok?
    ensures r.Ok? ==>
      r.value == xml.contactEvent(crypto.decrypt(xml.body(body).value.encryptedStr).value.text).value.userId
  {
    match xml.body(body)
    case Err(e) => Err(BODY_PARSE_FAILED + e)
    case Ok(b) =>
      if !Signed(crypto, [params.timestamp, params.nonce, b.encryptedStr], params.msgSignature) then
        Err(EVENT_SIGNATURE_FAILED)
      else
        match crypto.decrypt(b.encryptedStr)
        case Err(e) => Err(EVENT_DECRYPT_FAILED + e)
        case Ok(d) =>
          match xml.contactEvent(d.text)
          case Err(e) => Err(EVENT_PARSE_FAILED + e)
          case Ok(event) => Ok(event.userId)
  }

  /** A tampered callback is refused whatever its body says. */
  lemma TamperedCallbackRefused(crypto: CallbackCrypto, xml: Xml, params: CallbackParams, body: string)
    requires xml.body(body).Ok?
    requires !Signed(crypto, [params.timestamp, params.nonce, xml.body(body).value.encryptedStr],
                     params.msgSignature)
    ensures CreationRequest(crypto, xml, params, body) == Err(EVENT_SIGNATURE_FAILED)
  {
  }

  /** How `verify_guest` classifies a stored guest: no row, a balance of
      zero or less, or a positive balance. */
  function Standing(guests: seq<Rows.GuestRow>, name: string): (r: Result<(), Error>)
    ensures r.Err? ==> r.error.NotFound? || r.error.Overdue?
    ensures r.Err? && r.error.NotFound? <==> S.GuestByName(guests, name).None?
    ensures r.Err? && r.error.Overdue? <==>
      S.GuestByName(guests, name).Some? && S.GuestByName(guests, name).value.credit <= 0.0
    ensures r.Err? && r.error.Overdue? ==> r.error.credit == S.GuestByName(guests, name).value.credit
    ensures r.Ok? <==>
      S.GuestByName(guests, name).Some? && S.GuestByName(guests, name).value.credit > 0.0
  {
    match S.GuestByName(guests, name)
    case None => Err(NotFound)
    case Some(g) => if g.credit <= 0.0 then Err(Overdue(g.credit)) else Ok(())
  }

  class Accountant {
    /** `agent_id`: the WeCom id of the contact-directory application. */
    const agentId: nat
    const storage: S.StorageAgent
    const crypto: CallbackCrypto

    /** `Accountant::new`: the crypto agent is built from the configured
        token and key. */
    constructor (storage: S.StorageAgent, config: Config, newCrypto: (string, string) -> CallbackCrypto)
      ensures this.agentId == config.agentId && this.storage == storage
      ensures this.crypto == newCrypto(config.token, config.key)
    {
      this.agentId := config.agentId;
      this.storage := storage;
      this.crypto := newCrypto(config.token, config.key);
    }

    /** `verify_guest`: any failure to read the guest counts as NotFound. */
    function VerifyGuest(name: string): (r: Result<(), Error>)
      reads storage
      ensures r == Standing(storage.guests, name)
    {
      match storage.GetUser(name)
      case Err(_) => Err(NotFound)
      case Ok(user) => if user.credit <= 0.0 then Err(Overdue(user.credit)) else Ok(())
    }

    /** `get_guest`: the stored guest, or NotFound. */
    function GetGuest(name: string): (r: Result<Core.Guest, Error>)
      reads storage
      ensures r.Err? <==> S.GuestByName(storage.guests, name).None?
      ensures r.Err? ==> r.error == NotFound
      ensures r.Ok? ==> r.value == S.ToGuest(S.GuestByName(storage.guests, name).value)
    {
      match storage.GetUser(name)
      case Err(_) => Err(NotFound)
      case Ok(user) => Ok(user)
    }

    /** `register`: create the guest; a store error becomes Internal. */
    method Register(guest: Core.Guest) returns (r: Result<(), Error>)
      requires storage.Valid()
      modifies storage
      ensures storage.Valid()
      ensures storage.conversations == old(storage.conversations) && storage.messages == old(storage.messages)
      ensures r.Ok? <==> S.GuestByName(old(storage.guests), guest.name).None?
      ensures r.Ok? ==>
        storage.guests == old(storage.guests) +
          [Rows.GuestRow(old(storage.nextGuestId), guest.name, guest.credit, storage.clock, storage.clock,
                         guest.admin)]
      ensures r.Err? ==> r.error.Internal? && storage.guests == old(storage.guests)
    {
      var created := storage.CreateUser(guest);
      if created.Err? {
        return Err(Internal(CREATE_USER_FAILED + guest.name + "， " + S.ErrorText(created.error)));
      }
      r := Ok(());
    }

    /** `update_guest`: write the guest's credit and admin flag. */
    method UpdateGuest(guest: Core.Guest) returns (r: Result<(), Error>)
      requires storage.Valid()
      modifies storage
      ensures storage.Valid() && r.Ok?
      ensures storage.conversations == old(storage.conversations) && storage.messages == old(storage.messages)
      ensures storage.guests == S.SetGuest(old(storage.guests), guest.name, guest.credit, guest.admin, storage.clock)
    {
      var updated := storage.UpdateUser(guest);
      r := match updated
        case Ok(_) => Ok(())
        case Err(e) => Err(Internal(UPDATE_USER_FAILED + S.ErrorText(e)));
    }

    /** `handle_user_creation_event`: register the member named by a
        verified contact-change callback with no credit and no admin right.
        The change type is not inspected. */
    method HandleUserCreationEvent(xml: Xml, params: CallbackParams, body: string)
      returns (r: Result<(), Error>)
      requires storage.Valid()
      modifies storage
      ensures storage.Valid()
      ensures storage.conversations == old(storage.conversations) && storage.messages == old(storage.messages)
      ensures r.Err? ==> r.error.Internal?
      ensures CreationRequest(crypto, xml, params, body).Err? ==>
        r == Err(Internal(CreationRequest(crypto, xml, params, body).error)) && unchanged(storage)
      ensures CreationRequest(crypto, xml, params, body).Ok? ==>
        var userId := CreationRequest(crypto, xml, params, body).value;
        && (r.Ok? <==> S.GuestByName(old(storage.guests), userId).None?)
        && (r.Ok? ==>
              storage.guests == old(storage.guests) +
                [Rows.GuestRow(old(storage.nextGuestId), userId, 0.0, storage.clock, storage.clock, false)])
        && (r.Err? ==> storage.guests == old(storage.guests))
    {
      var request := CreationRequest(crypto, xml, params, body);
      if request.Err? {
        return Err(Internal(request.error));
      }
      var registered := Register(Core.Guest(request.value, 0.0, false));
      if registered.Err? {
        return Err(Internal(ADD_USER_FAILED + ErrorText(registered.error)));
      }
      r := Ok(());
    }

    /** `verify_url`: check the handshake's signature, then hand back the
        decrypted echo string. */
    function VerifyUrl(params: UrlVerifyParams): (r: Result<string, Error>)
      ensures r.Ok? <==>
        Signed(crypto, [params.timestamp, params.nonce, params.echostr], params.msgSignature) &&
        crypto.decrypt(params.echostr).Ok?
      ensures r.Ok? ==> r.value == crypto.decrypt(params.echostr).value.text
      ensures !Signed(crypto, [params.timestamp, params.nonce, params.echostr], params.msgSignature) ==>
        r == Err(Internal(URL_SIGNATURE_FAILED))
      ensures r.Err? ==> r.error.Internal?
    {
      if !Signed(crypto, [params.timestamp, params.nonce, params.echostr], params.msgSignature) then
        Err(Internal(URL_SIGNATURE_FAILED))
      else
        match crypto.decrypt(params.echostr)
        case Err(e) => Err(Internal(URL_DECRYPT_FAILED + e))
        case Ok(d) => Ok(d.text)
    }
  }
}
