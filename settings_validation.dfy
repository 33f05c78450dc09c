/** `siteSettingsSchema`: the WhatsApp number needs at least ten characters;
    each social link is absent, empty, or a string the URL predicate accepts.
    The URL predicate of the schema library is a parameter. */
module SettingsValidation {
  import opened Common
  import opened FieldRules

  const WhatsappMessage := "Geçerli bir WhatsApp numarası giriniz"
  const UrlMessage := "Geçerli bir URL giriniz"
  const WhatsappMinLength := 10

  /** The parsed settings form; a link is `undefined` or a string. */
  datatype SettingsInput = SettingsInput(
    whatsappNumber: string,
    instagramUrl: FieldValue,
    facebookUrl: FieldValue,
    twitterUrl: FieldValue)

  predicate LinkAccepted(v: FieldValue, isUrl: string -> bool)
  {
    v == Undefined || v == Text("") || (v.Text? && isUrl(v.s))
  }

  function SettingsSchema(whatsapp: FieldValue, instagram: FieldValue, facebook: FieldValue,
                          twitter: FieldValue, isUrl: string -> bool): (r: Parsed<SettingsInput>)
    ensures r.Valid? <==>
      whatsapp.Text? && |whatsapp.s| >= WhatsappMinLength
      && LinkAccepted(instagram, isUrl) && LinkAccepted(facebook, isUrl) && LinkAccepted(twitter, isUrl)
    ensures r.Valid? ==> r.data == SettingsInput(whatsapp.s, instagram, facebook, twitter)
    // the first failing field, in declaration order, names the message
    ensures !whatsapp.Text? ==> r == Invalid(MinLengthIssue(whatsapp, WhatsappMinLength, WhatsappMessage).value)
    ensures whatsapp.Text? && |whatsapp.s| < WhatsappMinLength ==> r == Invalid(WhatsappMessage)
    ensures whatsapp.Text? && |whatsapp.s| >= WhatsappMinLength && !LinkAccepted(instagram, isUrl) ==>
      r == Invalid(OptionalUrlIssue(instagram, isUrl, UrlMessage).value)
    ensures (whatsapp.Text? && |whatsapp.s| >= WhatsappMinLength && LinkAccepted(instagram, isUrl)
             && !LinkAccepted(facebook, isUrl)) ==>
      r == Invalid(OptionalUrlIssue(facebook, isUrl, UrlMessage).value)
    ensures (whatsapp.Text? && |whatsapp.s| >= WhatsappMinLength && LinkAccepted(instagram, isUrl)
             && LinkAccepted(facebook, isUrl) && !LinkAccepted(twitter, isUrl)) ==>
      r == Invalid(OptionalUrlIssue(twitter, isUrl, UrlMessage).value)
  {
    var issues := [
      MinLengthIssue(whatsapp, WhatsappMinLength, WhatsappMessage),
      OptionalUrlIssue(instagram, isUrl, UrlMessage),
      OptionalUrlIssue(facebook, isUrl, UrlMessage),
      OptionalUrlIssue(twitter, isUrl, UrlMessage)];
    match FirstIssue(issues)
    case Some(m) =>
      assert issues[0].Some? || issues[1].Some? || issues[2].Some? || issues[3].Some?;
      Invalid(m)
    case None =>
      assert issues[0] == None && issues[1] == None && issues[2] == None && issues[3] == None;
      Valid(SettingsInput(whatsapp.s, instagram, facebook, twitter))
  }

  /** A non-empty link the URL predicate refuses is reported with the URL
      message, whatever the other links hold, once the number is long enough
      and no earlier link fails. */
  lemma RejectedLinkMessage(whatsapp: string, ig: FieldValue, fb: FieldValue, tw: FieldValue,
                             isUrl: string -> bool)
    requires |whatsapp| >= WhatsappMinLength
    ensures ig.Text? && ig.s != "" && !isUrl(ig.s) ==>
      SettingsSchema(Text(whatsapp), ig, fb, tw, isUrl) == Invalid(UrlMessage)
    ensures (LinkAccepted(ig, isUrl) && fb.Text? && fb.s != "" && !isUrl(fb.s)) ==>
      SettingsSchema(Text(whatsapp), ig, fb, tw, isUrl) == Invalid(UrlMessage)
    ensures (LinkAccepted(ig, isUrl) && LinkAccepted(fb, isUrl) && tw.Text? && tw.s != "" && !isUrl(tw.s)) ==>
      SettingsSchema(Text(whatsapp), ig, fb, tw, isUrl) == Invalid(UrlMessage)
  {
  }
}
