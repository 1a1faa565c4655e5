/**
 * The two admin broadcast commands, `/newpost` and `/update`, over an outbox
 * that records what the bot sends: messages to the premium channel and reply
 * texts to the caller, in the order they are sent.
 */
module BotCommands {
  import opened Wrappers
  import opened Strings
  import opened BotHelpers

  const Refusal := "❌ الأمر للمشرف فقط."
  const NewPostAck := "✅ تم نشر التنبيه في القناة."
  const UpdateAck := "✅ تم إرسال التحديث."

  /** One thing the bot sends: a channel message or a reply to the caller. */
  datatype Effect = ToChannel(msg: ChannelMsg) | Reply(text: string)

  /** The channel messages of a run of effects, in order. */
  function ChannelPart(es: seq<Effect>): seq<ChannelMsg>
  {
    if |es| == 0 then []
    else (if es[0].ToChannel? then [es[0].msg] else []) + ChannelPart(es[1..])
  }

  /** The replies of a run of effects, in order. */
  function ReplyPart(es: seq<Effect>): seq<string>
  {
    if |es| == 0 then []
    else (if es[0].Reply? then [es[0].text] else []) + ReplyPart(es[1..])
  }

  /** The channel messages of appended effects are appended channel messages. */
  lemma {:induction false} ChannelPartOfAppend(a: seq<Effect>, b: seq<Effect>)
    ensures ChannelPart(a + b) == ChannelPart(a) + ChannelPart(b)
  {
    if |a| == 0 {
      assert a + b == b;
    } else {
      var head := if a[0].ToChannel? then [a[0].msg] else [];
      assert (a + b)[0] == a[0];
      assert (a + b)[1..] == a[1..] + b;
      ChannelPartOfAppend(a[1..], b);
      assert ChannelPart(a + b) == head + ChannelPart(a[1..] + b);
      assert ChannelPart(a) == head + ChannelPart(a[1..]);
    }
  }

  /** The replies of appended effects are appended replies. */
  lemma {:induction false} ReplyPartOfAppend(a: seq<Effect>, b: seq<Effect>)
    ensures ReplyPart(a + b) == ReplyPart(a) + ReplyPart(b)
  {
    if |a| == 0 {
      assert a + b == b;
    } else {
      var head := if a[0].Reply? then [a[0].text] else [];
      assert (a + b)[0] == a[0];
      assert (a + b)[1..] == a[1..] + b;
      ReplyPartOfAppend(a[1..], b);
      assert ReplyPart(a + b) == head + ReplyPart(a[1..] + b);
      assert ReplyPart(a) == head + ReplyPart(a[1..]);
    }
  }

  /** Both projections distribute over appending effects. */
  lemma PartsOfAppend(a: seq<Effect>, b: seq<Effect>)
    ensures ChannelPart(a + b) == ChannelPart(a) + ChannelPart(b)
    ensures ReplyPart(a + b) == ReplyPart(a) + ReplyPart(b)
  {
    ChannelPartOfAppend(a, b);
    ReplyPartOfAppend(a, b);
  }

  /** A channel message followed by a reply splits into one of each. */
  lemma SendThenReplyParts(m: ChannelMsg, text: string)
    ensures ChannelPart([ToChannel(m), Reply(text)]) == [m]
    ensures ReplyPart([ToChannel(m), Reply(text)]) == [text]
  {
    var es := [ToChannel(m), Reply(text)];
    assert es[1..] == [Reply(text)] && es[1..][1..] == [];
    assert ChannelPart(es[1..]) == [] + ChannelPart([]);
    assert ReplyPart(es[1..]) == [text] + ReplyPart([]);
  }

  /**
   * What `/newpost` sends. A caller who is not admin gets exactly the refusal
   * and nothing reaches the channel. The admin's alert reaches the channel
   * first, then the acknowledgement: a photo exactly when the replied-to
   * message has a photo with a non-empty file id, captioned with the
   * arguments (or the placeholder) as the single line.
   */
  function NewPostEffects(s: Settings, userId: int, args: seq<string>,
                          replyTo: Option<Message>, stamp: string): (es: seq<Effect>)
    ensures ReplyPart(es) == [if IsAdmin(s, userId) then NewPostAck else Refusal]
    ensures ChannelPart(es) == [] <==> !IsAdmin(s, userId)
    ensures !IsAdmin(s, userId) ==> es == [Reply(Refusal)]
    ensures IsAdmin(s, userId) ==>
              |es| == 2 && es[0].ToChannel? && es[1] == Reply(NewPostAck) &&
              ChannelPart(es) == [es[0].msg] &&
              es[0].msg.chat == s.channel && es[0].msg.markup == SubKeyboard(s) &&
              es[0].msg.Body() == BrandCaption(s, stamp, [ArgsText(args, NewPostDefault)]) &&
              (es[0].msg.PhotoMsg? <==> HasPhoto(PickPhoto(replyTo))) &&
              (es[0].msg.PhotoMsg? ==> es[0].msg.photo == PickPhoto(replyTo).value)
  {
    if !IsAdmin(s, userId) then [Reply(Refusal)]
    else
      var caption := BrandCaption(s, stamp, [ArgsText(args, NewPostDefault)]);
      SendThenReplyParts(Dispatch(s, PickPhoto(replyTo), caption), NewPostAck);
      [ToChannel(Dispatch(s, PickPhoto(replyTo), caption)), Reply(NewPostAck)]
  }

  /**
   * What `/update` sends: the same refusal for non-admins; for the admin a
   * text message (never a photo) whose single line is the update marker
   * followed by the arguments (or the placeholder), then the acknowledgement.
   */
  function UpdateEffects(s: Settings, userId: int, args: seq<string>, stamp: string): (es: seq<Effect>)
    ensures ReplyPart(es) == [if IsAdmin(s, userId) then UpdateAck else Refusal]
    ensures ChannelPart(es) == [] <==> !IsAdmin(s, userId)
    ensures !IsAdmin(s, userId) ==> es == [Reply(Refusal)]
    ensures IsAdmin(s, userId) ==>
              |es| == 2 && es[0].ToChannel? && es[1] == Reply(UpdateAck) &&
              ChannelPart(es) == [es[0].msg] &&
              es[0].msg.TextMsg? &&
              es[0].msg.chat == s.channel && es[0].msg.markup == SubKeyboard(s) &&
              es[0].msg.Body() == BrandCaption(s, stamp, [UpdateMarker + ArgsText(args, UpdateDefault)])
  {
    if !IsAdmin(s, userId) then [Reply(Refusal)]
    else
      var caption := BrandCaption(s, stamp, [UpdateMarker + ArgsText(args, UpdateDefault)]);
      SendThenReplyParts(Dispatch(s, None, caption), UpdateAck);
      [ToChannel(Dispatch(s, None, caption)), Reply(UpdateAck)]
  }

  /**
   * The bot's side of the chat service: the fixed settings, the messages sent
   * to the premium channel, the replies sent to callers, and the order in
   * which all of them went out.
   */
  class Outbox {
    const settings: Settings
    var channelOut: seq<ChannelMsg>
    var replies: seq<string>
    var trace: seq<Effect>

    /** The two outboxes are exactly the two kinds of sent effects. */
    ghost predicate Valid()
      reads this
    {
      channelOut == ChannelPart(trace) && replies == ReplyPart(trace)
    }

    constructor (settings: Settings)
      ensures Valid()
      ensures this.settings == settings
      ensures trace == [] && channelOut == [] && replies == []
    {
      this.settings := settings;
      channelOut, replies, trace := [], [], [];
    }

    /** Sends one text back to the caller. */
    method ReplyText(text: string)
      requires Valid()
      modifies this
      ensures Valid()
      ensures trace == old(trace) + [Reply(text)]
      ensures replies == old(replies) + [text] && channelOut == old(channelOut)
    {
      PartsOfAppend(trace, [Reply(text)]);
      replies := replies + [text];
      trace := trace + [Reply(text)];
    }

    /** `send_to_channel`: exactly one message to the premium channel. */
    method SendToChannel(photoFileId: Option<string>, caption: string)
      requires Valid()
      modifies this
      ensures Valid()
      ensures trace == old(trace) + [ToChannel(Dispatch(settings, photoFileId, caption))]
      ensures channelOut == old(channelOut) + [Dispatch(settings, photoFileId, caption)]
      ensures replies == old(replies)
    {
      var m: ChannelMsg;
      if HasPhoto(photoFileId) {
        m := PhotoMsg(settings.channel, photoFileId.value, caption, SubKeyboard(settings));
      } else {
        m := TextMsg(settings.channel, caption, SubKeyboard(settings));
      }
      PartsOfAppend(trace, [ToChannel(m)]);
      channelOut := channelOut + [m];
      trace := trace + [ToChannel(m)];
    }

    /** The `/newpost` handler. */
    method NewPost(userId: int, args: seq<string>, replyTo: Option<Message>, stamp: string)
      requires Valid()
      modifies this
      ensures Valid()
      ensures trace == old(trace) + NewPostEffects(settings, userId, args, replyTo, stamp)
      ensures channelOut == old(channelOut) + ChannelPart(NewPostEffects(settings, userId, args, replyTo, stamp))
      ensures replies == old(replies) + ReplyPart(NewPostEffects(settings, userId, args, replyTo, stamp))
    {
      ghost var before := trace;
      if !IsAdmin(settings, userId) {
        ReplyText(Refusal);
      } else {
        var text := ArgsText(args, NewPostDefault);
        var caption := BrandCaption(settings, stamp, [text]);
        var photoFileId: Option<string> := None;
        if replyTo.Some? && |replyTo.value.photo| > 0 {
          var photo := replyTo.value.photo[|replyTo.value.photo| - 1];
          photoFileId := Some(photo.fileId);
        }
        assert photoFileId == PickPhoto(replyTo);
        SendToChannel(photoFileId, caption);
        ReplyText(NewPostAck);
        assert trace == before + [ToChannel(Dispatch(settings, photoFileId, caption)), Reply(NewPostAck)];
      }
      PartsOfAppend(before, NewPostEffects(settings, userId, args, replyTo, stamp));
    }

    /** The `/update` handler. */
    method UpdateTrade(userId: int, args: seq<string>, stamp: string)
      requires Valid()
      modifies this
      ensures Valid()
      ensures trace == old(trace) + UpdateEffects(settings, userId, args, stamp)
      ensures channelOut == old(channelOut) + ChannelPart(UpdateEffects(settings, userId, args, stamp))
      ensures replies == old(replies) + ReplyPart(UpdateEffects(settings, userId, args, stamp))
    {
      ghost var before := trace;
      if !IsAdmin(settings, userId) {
        ReplyText(Refusal);
      } else {
        var text := ArgsText(args, UpdateDefault);
        var caption := BrandCaption(settings, stamp, [UpdateMarker + text]);
        SendToChannel(None, caption);
        ReplyText(UpdateAck);
        assert trace == before + [ToChannel(Dispatch(settings, None, caption)), Reply(UpdateAck)];
      }
      PartsOfAppend(before, UpdateEffects(settings, userId, args, stamp));
    }
  }
}
