/** The site-settings actions (actions/settings.ts). The settings table is
    meant to hold a single record: saving updates the first record when there
    is one and creates it otherwise. Rows are kept in the store's order, so
    "the first record" is the head of the sequence. */
module SettingsActions {
  import opened Common
  import opened FieldRules
  import opened Session
  import opened SettingsValidation

  const SaveFailed := "Ayarlar güncellenirken bir hata oluştu"

  datatype SiteSettings = SiteSettings(
    id: string, whatsappNumber: string,
    instagramUrl: Option<string>, facebookUrl: Option<string>, twitterUrl: Option<string>)

  /** `value || null`: an absent or empty link is stored as `null`. */
  function OrNull(v: FieldValue): (c: Option<string>)
    ensures c == None <==> !Truthy(v)
    ensures c.Some? ==> v == Text(c.value)
  {
    if Truthy(v) then Some(v.s) else None
  }

  /** The record saved under `id`: the number as given, the links through `OrNull`. */
  function Saved(id: string, input: SettingsInput): SiteSettings
  {
    SiteSettings(id, input.whatsappNumber, OrNull(input.instagramUrl),
                 OrNull(input.facebookUrl), OrNull(input.twitterUrl))
  }

  /** The settings form's fields, as `formData.get` reads them. */
  function ParseForm(form: FormData, isUrl: string -> bool): Parsed<SettingsInput>
  {
    SettingsSchema(FormGet(form, "whatsappNumber"), FormGet(form, "instagramUrl"),
                   FormGet(form, "facebookUrl"), FormGet(form, "twitterUrl"), isUrl)
  }

  /** A form without a link field hands the schema `null`, which the
      optional-or-empty rule refuses: the action needs every link field, even
      an empty one. */
  lemma MissingLinkRefused(form: FormData, isUrl: string -> bool)
    requires "whatsappNumber" in form && |form["whatsappNumber"]| >= WhatsappMinLength
    requires "instagramUrl" !in form
    ensures ParseForm(form, isUrl) == Invalid(InvalidInputMessage)
  {
  }

  class SettingsTable {
    var rows: seq<SiteSettings>

    constructor ()
      ensures rows == []
    {
      rows := [];
    }

    /** `updateSiteSettings` */
    method Save(jar: CookieJar, codec: TokenCodec, form: FormData, isUrl: string -> bool,
                newId: string, fault: bool) returns (r: ActionResult)
      modifies this
      ensures GetSession(jar, codec) == None ==> r == Failure(Unauthorized)
      ensures GetSession(jar, codec).Some? && ParseForm(form, isUrl).Invalid? ==>
        r == Failure(ParseForm(form, isUrl).message)
      ensures GetSession(jar, codec).Some? && ParseForm(form, isUrl).Valid? ==>
        r == (if fault then Failure(SaveFailed) else Success)
      ensures r == Success && old(rows) != [] ==>
        rows == old(rows)[0 := Saved(old(rows)[0].id, ParseForm(form, isUrl).data)]
      ensures r == Success && old(rows) == [] ==> rows == [Saved(newId, ParseForm(form, isUrl).data)]
      ensures r != Success ==> rows == old(rows)
      // the singleton rule: a save never adds a record beside an existing one
      ensures r == Success ==> |rows| == if old(rows) == [] then 1 else |old(rows)|
    {
      var session := GetSession(jar, codec);
      if session == None {
        return Failure(Unauthorized);
      }
      var result := ParseForm(form, isUrl);
      if result.Invalid? {
        return Failure(result.message);
      }
      if fault {
        return Failure(SaveFailed);
      }
      if rows != [] {
        rows := rows[0 := Saved(rows[0].id, result.data)];
      } else {
        rows := [Saved(newId, result.data)];
      }
      r := Success;
    }

    /** `getSiteSettings`: the first record, or none when there is none or
      the store fails. */
    method GetSiteSettings(fault: bool) returns (r: Option<SiteSettings>)
      ensures r.Some? <==> !fault && rows != []
      ensures r.Some? ==> r.value == rows[0]
    {
      if fault || rows == [] {
        return None;
      }
      r := Some(rows[0]);
    }
  }

  /** What a saved record holds: the number as submitted, every link that
      was submitted non-empty, and `null` for every empty link. */
  lemma SavedLinks(id: string, form: FormData, isUrl: string -> bool)
    requires ParseForm(form, isUrl).Valid?
    ensures var s := Saved(id, ParseForm(form, isUrl).data);
      && s.whatsappNumber == form["whatsappNumber"]
      && (s.instagramUrl == None <==> form["instagramUrl"] == "")
      && (s.instagramUrl.Some? ==> s.instagramUrl.value == form["instagramUrl"])
      && (s.facebookUrl == None <==> form["facebookUrl"] == "")
      && (s.facebookUrl.Some? ==> s.facebookUrl.value == form["facebookUrl"])
      && (s.twitterUrl == None <==> form["twitterUrl"] == "")
      && (s.twitterUrl.Some? ==> s.twitterUrl.value == form["twitterUrl"])
  {
  }
}
