/** The Telegram event handler's decision: whether a source update becomes an
    outbound Discord message, and which fields that message carries.  The
    media download is an input: it either failed (the download or the file
    write threw) or succeeded at a given reading of the millisecond clock. */
module Normalizer {
  import Decimal

  datatype Option<T> = None | Some(value: T)

  /** The peer a channel message was posted in; only a channel peer has a channel id. */
  datatype Peer = PeerChannel(channelId: int) | PeerOther

  datatype Media = MediaPhoto | MediaOther

  /** A Telegram message: `date` in seconds, `text` empty when the message has none. */
  datatype ChannelMessage = ChannelMessage(peer: Peer, date: int, text: string, media: Option<Media>)

  datatype Update = UpdateNewChannelMessage(message: ChannelMessage) | OtherUpdate

  /** Outcome of downloading a photo and writing it to a temporary file. */
  datatype Download = Downloaded(clockMs: int) | DownloadFailed

  /** The single embed of an outbound message; colour and author are fixed. */
  datatype Embed = Embed(
    color: string,
    authorName: string,
    authorIconUrl: string,
    timestampMs: int,
    description: Option<string>,
    footer: Option<string>)

  datatype OutboundMessage = OutboundMessage(embed: Embed, files: Option<seq<string>>)

  /** A deletion of a temporary file, scheduled `delayMs` after the download. */
  datatype Deletion = Deletion(path: string, delayMs: nat)

  datatype Handled = Handled(message: OutboundMessage, deletion: Option<Deletion>)

  const EmbedColor := "#0088cc"
  const AuthorIconUrl := "https://telegram.org/img/t_logo.png"
  const MediaErrorText := "Error: Could not process media attachment"
  const TempFileLifetimeMs: nat := 5000
  const TempPrefix := "./temp_"
  const TempSuffix := ".jpg"

  /** The temporary file a downloaded photo is written to, named after the clock. */
  function TempPath(clockMs: int): (p: string)
    ensures |p| > |TempPrefix| + |TempSuffix|
    ensures p[..|TempPrefix|] == TempPrefix && p[|p| - |TempSuffix|..] == TempSuffix
  {
    TempPrefix + Decimal.IntText(clockMs) + TempSuffix
  }

  /** Distinct clock readings give distinct temporary paths (and equal readings the same path). */
  lemma TempPathInjective(a: int, b: int)
    ensures TempPath(a) == TempPath(b) <==> a == b
  {
    if TempPath(a) == TempPath(b) {
      var p := TempPath(a);
      var n := |p| - |TempPrefix| - |TempSuffix|;
      assert p[|TempPrefix|..|TempPrefix| + n] == Decimal.IntText(a);
      assert TempPath(b)[|TempPrefix|..|TempPrefix| + n] == Decimal.IntText(b);
      Decimal.IntTextInjective(a, b);
    }
  }

  /** The reference filter: a new channel message posted in the monitored channel. */
  predicate IsMonitored(u: Update, monitored: int) {
    && u.UpdateNewChannelMessage?
    && u.message.peer.PeerChannel?
    && u.message.peer.channelId == monitored
  }

  /** The message built for a matching update, with the temporary file's deletion when one was written. */
  function Build(m: ChannelMessage, channelUsername: string, download: Download): (h: Handled)
    ensures h.message.embed.color == EmbedColor
    ensures h.message.embed.authorName == channelUsername
    ensures h.message.embed.authorIconUrl == AuthorIconUrl
    // the embed timestamp in milliseconds is the message date in seconds times 1000
    ensures h.message.embed.timestampMs == m.date * 1000
    // the description is present exactly when the text is non-empty, and is then the text
    ensures h.message.embed.description.Some? <==> m.text != ""
    ensures h.message.embed.description.Some? ==> h.message.embed.description.value == m.text
    // a file is attached exactly when a photo was downloaded, at the path named after the clock
    ensures h.message.files.Some? <==> m.media == Some(MediaPhoto) && download.Downloaded?
    ensures h.message.files.Some? ==> h.message.files.value == [TempPath(download.clockMs)]
    // the footer is present exactly when handling a photo threw, and is then the error text
    ensures h.message.embed.footer.Some? <==> m.media == Some(MediaPhoto) && download.DownloadFailed?
    ensures h.message.embed.footer.Some? ==> h.message.embed.footer.value == MediaErrorText
    // each written file gets one deletion, 5000 ms later
    ensures h.deletion.Some? <==> h.message.files.Some?
    ensures h.deletion.Some? ==> h.deletion.value == Deletion(h.message.files.value[0], TempFileLifetimeMs)
  {
    var description := if m.text != "" then Some(m.text) else None;
    var base := Embed(EmbedColor, channelUsername, AuthorIconUrl, m.date * 1000, description, None);
    match m.media
    case Some(MediaPhoto) =>
      (match download
       case Downloaded(clockMs) =>
         var path := TempPath(clockMs);
         Handled(OutboundMessage(base, Some([path])), Some(Deletion(path, TempFileLifetimeMs)))
       case DownloadFailed =>
         Handled(OutboundMessage(base.(footer := Some(MediaErrorText)), None), None))
    case _ =>
      Handled(OutboundMessage(base, None), None)
  }

  /** The handler's result for one update.  The channel ids are compared as decimal
      text; reading the channel id of a non-channel peer throws, and the handler's
      outer catch then drops the update. */
  function Normalize(u: Update, monitored: int, channelUsername: string, download: Download): (r: Option<Handled>)
    ensures r.Some? <==> IsMonitored(u, monitored)
    ensures r.Some? ==> r.value == Build(u.message, channelUsername, download)
  {
    match u
    case OtherUpdate => None
    case UpdateNewChannelMessage(m) =>
      match m.peer
      case PeerOther => None
      case PeerChannel(id) =>
        Decimal.IntTextInjective(id, monitored);
        if Decimal.IntText(id) == Decimal.IntText(monitored) then
          Some(Build(m, channelUsername, download))
        else
          None
  }

  /** A matching update with no text and no media still yields a message, with
      neither description, footer nor file. */
  lemma EmptyUpdateStillRelayed(u: Update, monitored: int, channelUsername: string, download: Download)
    requires IsMonitored(u, monitored)
    requires u.message.text == "" && u.message.media == None
    ensures var r := Normalize(u, monitored, channelUsername, download);
      && r.Some?
      && r.value.message.embed.description == None
      && r.value.message.embed.footer == None
      && r.value.message.files == None
      && r.value.deletion == None
  {
  }

  /** Media other than a photo sets neither a file nor a footer, whatever the download would have done. */
  lemma NonPhotoMediaIgnored(m: ChannelMessage, channelUsername: string, d1: Download, d2: Download)
    requires m.media == Some(MediaOther)
    ensures Build(m, channelUsername, d1) == Build(m, channelUsername, d2)
    ensures Build(m, channelUsername, d1).message.files == None
    ensures Build(m, channelUsername, d1).message.embed.footer == None
  {
  }
}
