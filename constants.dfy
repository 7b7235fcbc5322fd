/**
 * The static configuration of the radio (constants.ts): the recipient of song
 * requests and the ordered list of channels. Nothing here changes at run time.
 */
module Constants {
  /** One selectable audio stream with its display metadata. */
  datatype Stream = Stream(id: string, name: string, url: string, cover: string, desc: string)

  /** Recipient of song requests: country code, area code and number, no symbols. */
  const WHATSAPP_NUMBER: string := "5511999999999"

  /** The channels, in the order the channel list shows them. */
  const STREAMS: seq<Stream> := [
    Stream("stream-main", "Rádio Principal", "https://stream.zeno.fm/cldwactvjlgtv",
           "https://picsum.photos/id/1/800/800", "Os maiores sucessos 24h"),
    Stream("stream-alt", "Canal Flashback", "https://stream.zeno.fm/cldwactvjlgtv",
           "https://picsum.photos/id/39/800/800", "O melhor dos anos 80 e 90")
  ]
}
