/** The shape of an observed WhatsApp message as the plugin reads it, the cache
    entry it stores, and the two selections it makes on a message: which text to
    keep and which attachment to download. */
module Messages {
  import opened JsValues

  type Byte = b: int | 0 <= b < 256
  type Bytes = seq<Byte>

  /** The attachment kinds the plugin probes, in the order it probes them. */
  datatype MediaKind = Image | Video | Audio | Document

  const MediaKinds: seq<MediaKind> := [Image, Video, Audio, Document]

  /** Position of a kind in the probing order. */
  function Rank(k: MediaKind): (r: nat)
    ensures r < |MediaKinds| && MediaKinds[r] == k
  {
    match k
    case Image => 0
    case Video => 1
    case Audio => 2
    case Document => 3
  }

  /** The `type` string: `'image'`, `'video'`, `'audio'` or `'document'`. */
  function KindName(k: MediaKind): string
  {
    match k
    case Image => "image"
    case Video => "video"
    case Audio => "audio"
    case Document => "document"
  }

  /** The payload property that carries an attachment of kind `k`. */
  function FieldName(k: MediaKind): string
  {
    KindName(k) + "Message"
  }

  /** `msg.key`. The id is the cache key. */
  datatype Key = Key(remoteJid: Option<string>, fromMe: bool, id: string, participant: Option<string>)

  /** An object-valued property of the payload (`extendedTextMessage`,
      `imageMessage`, ...) with the two sub-fields the plugin reads. */
  datatype SubMessage = SubMessage(text: Option<string>, caption: Option<string>)

  /** One property of `msg.message` whose value is an object; properties whose
      value is `null` or `undefined` are absent. */
  datatype Field = Field(name: string, value: SubMessage)

  /** `msg.message`: the plain `conversation` body and the object-valued
      properties in the order `Object.values` lists them. */
  datatype Payload = Payload(conversation: Option<string>, fields: seq<Field>)

  /** One element of the `messages` array of a `messages.upsert` event. */
  datatype WebMessage = WebMessage(key: Key, message: Option<Payload>)

  /** The cached record `{content, media, type, sender, timestamp, chatJid}`;
      `kind` stands for the source's `type` property. */
  datatype Entry = Entry(
    content: Option<string>,
    media: Option<Bytes>,
    kind: Option<MediaKind>,
    sender: Option<string>,
    timestamp: int,
    chatJid: Option<string>)

  /** `message[name]`: the first property with that name. */
  function Lookup(fields: seq<Field>, name: string): (r: Option<SubMessage>)
    ensures r.Some? <==> exists i :: 0 <= i < |fields| && fields[i].name == name
    ensures r.Some? ==> exists i :: 0 <= i < |fields| && fields[i] == Field(name, r.value)
  {
    if fields == [] then None
    else if fields[0].name == name then Some(fields[0].value)
    else
      var r := Lookup(fields[1..], name);
      assert forall i :: 1 <= i < |fields| ==> fields[i] == fields[1..][i - 1];
      r
  }

  /** `message.extendedTextMessage?.text`: missing when the payload has no
      `extendedTextMessage` property, otherwise the `text` of such a property. */
  function ExtendedText(p: Payload): (r: Option<string>)
    ensures (forall i :: 0 <= i < |p.fields| ==> p.fields[i].name != "extendedTextMessage") ==> r.None?
    ensures Lookup(p.fields, "extendedTextMessage").Some? ==> r == Lookup(p.fields, "extendedTextMessage").value.text
    ensures r.Some? ==> exists i :: 0 <= i < |p.fields| && p.fields[i].name == "extendedTextMessage"
                                   && p.fields[i].value.text == r
  {
    match Lookup(p.fields, "extendedTextMessage")
    case None => None
    case Some(m) => m.text
  }

  /** `Object.values(message).find(m => m?.caption)`: the position of the first
      property whose caption is truthy, or `|fields|` when there is none. */
  function CaptionIndex(fields: seq<Field>): (i: nat)
    ensures i <= |fields|
    ensures forall j :: 0 <= j < i ==> !Truthy(fields[j].value.caption)
    ensures i < |fields| ==> Truthy(fields[i].value.caption)
  {
    if fields == [] then 0
    else if Truthy(fields[0].value.caption) then 0
    else
      var i := CaptionIndex(fields[1..]);
      assert forall j :: 1 <= j < |fields| ==> fields[j] == fields[1..][j - 1];
      i + 1
  }

  /** `Object.values(message).find(m => m?.caption)?.caption`. */
  function FirstCaption(fields: seq<Field>): (r: Option<string>)
    ensures r.Some? ==> Truthy(r)
    ensures r.Some? ==> exists i :: 0 <= i < |fields| && fields[i].value.caption == r
                                   && forall j :: 0 <= j < i ==> !Truthy(fields[j].value.caption)
    ensures r.None? <==> forall i :: 0 <= i < |fields| ==> !Truthy(fields[i].value.caption)
  {
    var i := CaptionIndex(fields);
    if i < |fields| then fields[i].value.caption else None
  }

  /** The text the plugin keeps:
      `conversation || extendedTextMessage?.text || <first caption>`. It is
      either missing or a non-empty string, taken from the first source in that
      order that is truthy. */
  function Content(p: Payload): (r: Option<string>)
    ensures r.Some? <==> Truthy(r)
    ensures Truthy(p.conversation) ==> r == p.conversation
    ensures !Truthy(p.conversation) && Truthy(ExtendedText(p)) ==> r == ExtendedText(p)
    ensures !Truthy(p.conversation) && !Truthy(ExtendedText(p)) ==> r == FirstCaption(p.fields)
    ensures r.None? <==> !Truthy(p.conversation) && !Truthy(ExtendedText(p)) && FirstCaption(p.fields).None?
  {
    Or(Or(p.conversation, ExtendedText(p)), FirstCaption(p.fields))
  }

  /** `message[k + 'Message']` is truthy: the payload has an object-valued
      property of that name. */
  predicate Present(p: Payload, k: MediaKind): (r: bool)
    ensures r <==> exists i :: 0 <= i < |p.fields| && p.fields[i].name == FieldName(k)
  {
    Lookup(p.fields, FieldName(k)).Some?
  }

  /** The loop over `['image', 'video', 'audio', 'document']`, from position
      `i` on: the first kind whose property is present. */
  function FirstKindFrom(p: Payload, i: nat): (r: Option<MediaKind>)
    requires i <= |MediaKinds|
    ensures r.Some? ==> Present(p, r.value) && i <= Rank(r.value)
    ensures r.Some? ==> forall k :: i <= Rank(k) < Rank(r.value) ==> !Present(p, k)
    ensures r.None? ==> forall k :: i <= Rank(k) ==> !Present(p, k)
    decreases |MediaKinds| - i
  {
    if i == |MediaKinds| then None
    else if Present(p, MediaKinds[i]) then Some(MediaKinds[i])
    else FirstKindFrom(p, i + 1)
  }

  /** The attachment kind of a message: the first present one in the order
      image, video, audio, document. */
  function FirstKind(p: Payload): (r: Option<MediaKind>)
    ensures r.Some? ==> Present(p, r.value) && forall k :: Rank(k) < Rank(r.value) ==> !Present(p, k)
    ensures r.None? <==> forall k :: !Present(p, k)
  {
    FirstKindFrom(p, 0)
  }
}
