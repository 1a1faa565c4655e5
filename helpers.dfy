/**
 * The helpers of the alert bot: settings, the admin check, the branded
 * caption, the subscribe keyboard and the choice between a photo and a text
 * message when broadcasting to the premium channel.
 */
module BotHelpers {
  import opened Wrappers
  import opened Strings

  /** The premium channel: a public `@name` or a numeric chat id. */
  datatype ChatId = Username(name: string) | NumericId(id: int)

  /**
   * Settings read once from the configuration and never changed afterwards.
   * `channel`, `sallaUrl` and `timezone` are the raw configuration values,
   * absent when the key is missing; `displayName` and `adminId` already carry
   * their defaults.
   */
  datatype Settings = Settings(
    displayName: string,
    channel: Option<ChatId>,
    sallaUrl: Option<string>,
    adminId: int,
    timezone: Option<string>)

  // ---------- Authorization ----------

  /** The callers that count as admin: none when the configured id is 0. */
  function AdminIds(s: Settings): (ids: set<int>)
    ensures |ids| <= 1
    ensures s.adminId == 0 <==> ids == {}
  {
    if s.adminId == 0 then {} else {s.adminId}
  }

  /** `is_admin`: a non-zero configured id equal to the caller's. */
  function IsAdmin(s: Settings, userId: int): (b: bool)
    ensures b <==> userId in AdminIds(s)
  {
    s.adminId != 0 && userId == s.adminId
  }

  /** With the admin id left at 0, nobody is admin, not even user 0. */
  lemma ZeroAdminDisablesAll(s: Settings, userId: int)
    requires s.adminId == 0
    ensures !IsAdmin(s, userId)
  {
  }

  /** At most one caller is admin, and a non-zero configured id is one. */
  lemma SingleAdmin(s: Settings, u: int, v: int)
    requires IsAdmin(s, u) && IsAdmin(s, v)
    ensures u == v == s.adminId
  {
  }

  // ---------- Caption ----------

  const HeaderLead := "🔥 "
  const HeaderTail := " — SPX/Options Bot\n"
  const FooterLead := "\n—\n⏱️ "
  const Disclaimer := "⚠️ التداول مسؤوليتك الشخصية"

  /**
   * How the footer prints the configured timezone: the raw setting, or
   * Python's rendering of a missing one.
   */
  function TimezoneLabel(s: Settings): (shown: string)
    ensures s.timezone.Some? ==> shown == s.timezone.value
    ensures s.timezone.None? ==> shown == "None"
  {
    if s.timezone.Some? then s.timezone.value else "None"
  }

  /** The first line of every caption, naming the display name. */
  function Header(s: Settings): (h: string)
    ensures |h| == |HeaderLead| + |s.displayName| + |HeaderTail|
    ensures h[..|HeaderLead|] == HeaderLead
    ensures h[|HeaderLead|..|HeaderLead| + |s.displayName|] == s.displayName
    ensures h[|h| - 1] == '\n'
  {
    HeaderLead + s.displayName + HeaderTail
  }

  /** The closing lines: the stamp, the timezone name and the disclaimer. */
  function Footer(s: Settings, stamp: string): (f: string)
    ensures |f| == |FooterLead| + |stamp| + 2 + |TimezoneLabel(s)| + 2 + |Disclaimer|
    ensures f[0] == '\n'
    ensures f[|FooterLead|..|FooterLead| + |stamp|] == stamp
    ensures f[|FooterLead| + |stamp| + 2..|FooterLead| + |stamp| + 2 + |TimezoneLabel(s)|]
            == TimezoneLabel(s)
    ensures f[|f| - |Disclaimer|..] == Disclaimer
  {
    FooterLead + stamp + " (" + TimezoneLabel(s) + ")\n" + Disclaimer
  }

  /**
   * `brand_caption` with the clock reading passed in as `stamp`: the header,
   * then the lines joined by newlines in their order, then the footer.
   */
  function BrandCaption(s: Settings, stamp: string, lines: seq<string>): (c: string)
    ensures |c| == |Header(s)| + |Join(lines, '\n')| + |Footer(s, stamp)|
    ensures c[..|Header(s)|] == Header(s)
    ensures c[|Header(s)|..|c| - |Footer(s, stamp)|] == Join(lines, '\n')
    ensures c[|c| - |Footer(s, stamp)|..] == Footer(s, stamp)
  {
    Header(s) + Join(lines, '\n') + Footer(s, stamp)
  }

  /**
   * Reads the lines back out of a caption built with the same settings and
   * stamp, or None when the text does not have that header and footer.
   */
  function CaptionLines(s: Settings, stamp: string, c: string): Option<seq<string>>
  {
    var h, f := Header(s), Footer(s, stamp);
    if |c| >= |h| + |f| && c[..|h|] == h && c[|c| - |f|..] == f
    then Some(Split(c[|h|..|c| - |f|], '\n'))
    else None
  }

  /** The lines of a caption come back out in their order, none lost or merged. */
  lemma {:induction false} CaptionRoundTrip(s: Settings, stamp: string, lines: seq<string>)
    requires |lines| >= 1 && NoSep(lines, '\n')
    ensures CaptionLines(s, stamp, BrandCaption(s, stamp, lines)) == Some(lines)
  {
    SplitJoin(lines, '\n');
  }

  /** A text with a given prefix and suffix is the prefix, the middle and the suffix. */
  lemma Bracketed(c: string, h: string, f: string)
    requires |c| >= |h| + |f| && c[..|h|] == h && c[|c| - |f|..] == f
    ensures c == h + c[|h|..|c| - |f|] + f
  {
  }

  /** Every text that reads back as lines is exactly the caption of those lines. */
  lemma {:induction false} CaptionLinesSound(s: Settings, stamp: string, c: string)
    requires CaptionLines(s, stamp, c).Some?
    ensures BrandCaption(s, stamp, CaptionLines(s, stamp, c).value) == c
  {
    var h, f := Header(s), Footer(s, stamp);
    assert |c| >= |h| + |f| && c[..|h|] == h && c[|c| - |f|..] == f;
    var body := c[|h|..|c| - |f|];
    Bracketed(c, h, f);
    JoinSplit(body, '\n');
    assert CaptionLines(s, stamp, c).value == Split(body, '\n');
  }

  /** Different line lists never share a caption under one stamp. */
  lemma {:induction false} CaptionInjective(s: Settings, stamp: string, a: seq<string>, b: seq<string>)
    requires |a| >= 1 && NoSep(a, '\n')
    requires |b| >= 1 && NoSep(b, '\n')
    requires BrandCaption(s, stamp, a) == BrandCaption(s, stamp, b)
    ensures a == b
  {
    CaptionRoundTrip(s, stamp, a);
    CaptionRoundTrip(s, stamp, b);
  }

  // ---------- Subscribe keyboard ----------

  const SubscribeLabel := "اشترك الآن عبر Salla"

  datatype Button = UrlButton(text: string, url: Option<string>)
  datatype Keyboard = InlineKeyboard(rows: seq<seq<Button>>)

  /** `sub_keyboard`: one row holding one button that links to SALLA_URL. */
  function SubKeyboard(s: Settings): (k: Keyboard)
    ensures |k.rows| == 1 && |k.rows[0]| == 1
    ensures k.rows[0][0].text == SubscribeLabel && k.rows[0][0].url == s.sallaUrl
  {
    InlineKeyboard([[UrlButton(SubscribeLabel, s.sallaUrl)]])
  }

  // ---------- Broadcast ----------

  /** What the bot sends to a chat: a captioned photo or a plain text. */
  datatype ChannelMsg =
    | PhotoMsg(chat: Option<ChatId>, photo: string, caption: string, markup: Keyboard)
    | TextMsg(chat: Option<ChatId>, text: string, markup: Keyboard)
  {
    /** The caption of a photo, the text of a text message. */
    function Body(): string
    {
      if PhotoMsg? then caption else text
    }
  }

  /** Python truthiness of `photo_file_id`: present and not the empty string. */
  predicate HasPhoto(photoFileId: Option<string>): (b: bool)
    ensures photoFileId.None? ==> !b
    ensures photoFileId == Some("") ==> !b
    ensures photoFileId.Some? && |photoFileId.value| > 0 ==> b
  {
    photoFileId.Some? && photoFileId.value != ""
  }

  /**
   * The message `send_to_channel` sends: a photo exactly when the file id is
   * truthy, otherwise a text; either way to the premium channel, with the
   * same body and the subscribe keyboard.
   */
  function Dispatch(s: Settings, photoFileId: Option<string>, caption: string): (m: ChannelMsg)
    ensures m.PhotoMsg? <==> HasPhoto(photoFileId)
    ensures m.TextMsg? <==> !HasPhoto(photoFileId)
    ensures m.PhotoMsg? ==> m.photo == photoFileId.value
    ensures m.chat == s.channel && m.Body() == caption && m.markup == SubKeyboard(s)
  {
    if HasPhoto(photoFileId)
    then PhotoMsg(s.channel, photoFileId.value, caption, SubKeyboard(s))
    else TextMsg(s.channel, caption, SubKeyboard(s))
  }

  // ---------- Command arguments ----------

  const NewPostDefault := "تنبيه صفقة جديدة"
  const UpdateDefault := "تحديث صفقة"
  const UpdateMarker := "📊 تحديث: "

  /**
   * The alert text of a command: its arguments joined by single spaces, or
   * the placeholder when there are none. The arguments come back out of the
   * text by splitting at spaces, as long as none holds a space itself.
   */
  function ArgsText(args: seq<string>, placeholder: string): (t: string)
    ensures |args| == 0 ==> t == placeholder
    ensures |args| > 0 && NoSep(args, ' ') ==> Split(t, ' ') == args
  {
    if |args| == 0 then placeholder
    else
      var t := Join(args, ' ');
      assert NoSep(args, ' ') ==> Split(t, ' ') == args by {
        if NoSep(args, ' ') { SplitJoin(args, ' '); }
      }
      t
  }

  // ---------- Photos of a replied-to message ----------

  /** One size of a photo, as the chat service lists them. */
  datatype PhotoSize = PhotoSize(fileId: string, width: nat, height: nat)

  /** The message a command replies to; `photo` is empty when it has none. */
  datatype Message = Message(photo: seq<PhotoSize>)

  function Pixels(p: PhotoSize): nat
  {
    p.width * p.height
  }

  /** The sizes are listed from smallest to largest, neighbour by neighbour. */
  predicate AscendingBySize(ps: seq<PhotoSize>)
  {
    forall i :: 0 <= i < |ps| - 1 ==> Pixels(ps[i]) <= Pixels(ps[i + 1])
  }

  /** The photo `newpost` reuses: the last size of the replied-to photo, if any. */
  function PickPhoto(replyTo: Option<Message>): (r: Option<string>)
    ensures r.Some? <==> replyTo.Some? && |replyTo.value.photo| > 0
    ensures r.Some? ==> r.value == replyTo.value.photo[|replyTo.value.photo| - 1].fileId
  {
    if replyTo.Some? && |replyTo.value.photo| > 0
    then Some(replyTo.value.photo[|replyTo.value.photo| - 1].fileId)
    else None
  }

  /** In a list ascending by size, the last entry is at least as large as any other. */
  lemma {:induction false} LastIsLargest(ps: seq<PhotoSize>, j: nat)
    requires AscendingBySize(ps) && j < |ps|
    ensures Pixels(ps[j]) <= Pixels(ps[|ps| - 1])
    decreases |ps| - j
  {
    if j < |ps| - 1 {
      LastIsLargest(ps, j + 1);
    }
  }

  /** `newpost` reuses the highest-resolution size of the replied-to photo. */
  lemma PickPhotoIsLargest(m: Message)
    requires |m.photo| > 0 && AscendingBySize(m.photo)
    ensures PickPhoto(Some(m)).Some?
    ensures PickPhoto(Some(m)).value == m.photo[|m.photo| - 1].fileId
    ensures forall j :: 0 <= j < |m.photo| ==>
              Pixels(m.photo[j]) <= Pixels(m.photo[|m.photo| - 1])
  {
    forall j | 0 <= j < |m.photo|
      ensures Pixels(m.photo[j]) <= Pixels(m.photo[|m.photo| - 1])
    {
      LastIsLargest(m.photo, j);
    }
  }
}
