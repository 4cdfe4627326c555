/** Opaque bytes kept as base64 text. */
module Payloads {
  import opened Base64
  import opened Bytes
  import opened Options
  import opened Streams

  /** The bytes a text stands for; none if it is no base64. */
  ghost function Payload(text: string): seq<byte> {
    var decoded := Decode(text);
    if decoded.Some? then decoded.value else []
  }

  lemma PayloadRoundTrip(s: seq<byte>)
    ensures Payload(Encode(s)) == s
  {
    hide Encode, Decode;
    DecodeEncode(s);
  }

  /** Nothing comes of a text that the decoder rejects; of any other as many bytes as its blocks and pads say. */
  lemma PayloadLength(text: string)
    ensures |Payload(text)| ==
      if AllValid(text[..Examined(text)]) && FinalPads(text) <= 2 then Examined(text) / 4 * 3 - FinalPads(text) else 0
  {
    hide Decode, AllValid, Examined, FinalPads;
    DecodeOutcome(text);
  }

  lemma NoPayload()
    ensures Payload("") == []
  {
    hide Decode;
    DecodeLeftover("", []);
  }

  method WritePayload(text: string, out: File)
    modifies out
    ensures out.Holds(old(out.data), old(out.pos), Payload(text))
  {
    hide Decode;
    var decoded := Base64Decode(text);
    if decoded.Some? {
      out.Write(decoded.value);
    }
  }
}
