/** The WeCom server-side messages the gateway receives (src/wecom_api.rs)
    and the two external services it uses to read them: the callback
    crypto agent of the `wecom_crypto` crate and an XML deserialiser. Both
    are opaque here and enter the model as function-valued parameters. */
module WecomApi {

  import opened Common

  /** Query of the URL-verification handshake. */
  datatype UrlVerifyParams = UrlVerifyParams(
    msgSignature: string, timestamp: string, nonce: string, echostr: string)

  /** Query of a callback. */
  datatype CallbackParams = CallbackParams(msgSignature: string, nonce: string, timestamp: string)

  /** Body of a callback: the encrypted payload and its routing fields. */
  datatype CallbackRequestBody = CallbackRequestBody(
    toUserName: string, agentId: string, encryptedStr: string)

  /** Decrypted content of an application (chat) message. */
  datatype AppMessageContent = AppMessageContent(
    toUserName: string, fromUserName: string, createTime: nat, msgType: string,
    content: string, msgId: string, agentId: string)

  /** Decrypted content of a contact-change event; only the user id and the
      change type are read. */
  datatype ContactEventContent = ContactEventContent(changeType: string, userId: string)

  /** What `wecom_crypto::Agent::decrypt` yields. */
  datatype Decrypted = Decrypted(text: string, receiveId: string)

  /** A `wecom_crypto::Agent` built from a token and a key. */
  datatype CallbackCrypto = CallbackCrypto(
    generateSignature: seq<string> -> string,
    decrypt: string -> Result<Decrypted, string>)

  /** `serde_xml_rs::from_str` at the three types read from XML; an error
      carries the deserialiser's message. */
  datatype Xml = Xml(
    body: string -> Result<CallbackRequestBody, string>,
    appMessage: string -> Result<AppMessageContent, string>,
    contactEvent: string -> Result<ContactEventContent, string>)
}
