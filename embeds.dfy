// src/components/EmbedBuilder.tsx: the edits the builder makes to the list
// of draft embeds and to each embed's fields, and the colour picker's text.

module Embeds {
  import opened Types
  import opened Text
  import opened Lists
  import opened Discord

  /** The colour of a new embed (medium slate blue). */
  const DefaultEmbedColor: int := 0x7B68EE

  /** The embed addEmbed appends: empty title and description, the default
      colour, an empty field list, nothing else. */
  const NewEmbed: DiscordEmbed :=
    DiscordEmbed(Some(""), Some(""), None, Some(DefaultEmbedColor), None, None, None, None, None, Some([]))

  /** The field addField appends. */
  const NewField: EmbedField := EmbedField("Field Name", "Field Value", Some(false))

  // ---------------------------------------------------------------------------
  // The list of embeds

  /** addEmbed: `[...embeds, newEmbed]`. */
  function AddEmbed(embeds: seq<DiscordEmbed>): (r: seq<DiscordEmbed>)
    ensures |r| == |embeds| + 1 && r[..|embeds|] == embeds && r[|embeds|] == NewEmbed
  {
    embeds + [NewEmbed]
  }

  /** removeEmbed: `embeds.filter((_, i) => i !== index)`. */
  function RemoveEmbed(embeds: seq<DiscordEmbed>, index: int): (r: seq<DiscordEmbed>)
    ensures 0 <= index < |embeds| ==> |r| == |embeds| - 1 && r[..index] == embeds[..index] && r[index..] == embeds[index + 1..]
    ensures !(0 <= index < |embeds|) ==> r == embeds
  {
    RemoveAt(embeds, index)
  }

  /** Removing the embed just added gives back the list before. */
  lemma RemoveUndoesAdd(embeds: seq<DiscordEmbed>)
    ensures RemoveEmbed(AddEmbed(embeds), |embeds|) == embeds
  {
    var r := RemoveEmbed(AddEmbed(embeds), |embeds|);
    assert r[..|embeds|] == AddEmbed(embeds)[..|embeds|];
  }

  /** The keys of an embed the builder's inputs edit, one per handler. */
  datatype EmbedEdit =
    | SetTitle(title: string)
    | SetDescription(description: string)
    | SetUrl(url: string)
    | SetColor(color: int)
    | SetImage(image: Option<Image>)

  /** `{ ...embed, ...updates }` for the one key of `edit`: that key takes
      the new value and every other key keeps its own. */
  function ApplyEmbedEdit(e: DiscordEmbed, edit: EmbedEdit): (r: DiscordEmbed)
    ensures KeepsUneditedKeys(e, r, edit)
    ensures edit.SetTitle? ==> r.title == Some(edit.title)
    ensures edit.SetDescription? ==> r.description == Some(edit.description)
    ensures edit.SetUrl? ==> r.url == Some(edit.url)
    ensures edit.SetColor? ==> r.color == Some(edit.color)
    ensures edit.SetImage? ==> r.image == edit.image
  {
    match edit
    case SetTitle(t) => e.(title := Some(t))
    case SetDescription(d) => e.(description := Some(d))
    case SetUrl(u) => e.(url := Some(u))
    case SetColor(c) => e.(color := Some(c))
    case SetImage(i) => e.(image := i)
  }

  /** The embed keys an edit leaves alone: all but the edited one, and the
      timestamp, footer, thumbnail, author and fields always. */
  predicate KeepsUneditedKeys(e: DiscordEmbed, r: DiscordEmbed, edit: EmbedEdit) {
    && (edit.SetTitle? || r.title == e.title)
    && (edit.SetDescription? || r.description == e.description)
    && (edit.SetUrl? || r.url == e.url)
    && (edit.SetColor? || r.color == e.color)
    && (edit.SetImage? || r.image == e.image)
    && r.timestamp == e.timestamp && r.footer == e.footer && r.thumbnail == e.thumbnail
    && r.author == e.author && r.fields == e.fields
  }

  /** updateEmbed(index, updates): embed `index` gets the edited key, every
      other key of it and every other embed stays, and the length is kept. */
  function UpdateEmbed(embeds: seq<DiscordEmbed>, index: int, edit: EmbedEdit): (r: seq<DiscordEmbed>)
    requires 0 <= index < |embeds|
    ensures |r| == |embeds|
    ensures forall j :: 0 <= j < |r| && j != index ==> r[j] == embeds[j]
    ensures KeepsUneditedKeys(embeds[index], r[index], edit)
    ensures edit.SetTitle? ==> r[index].title == Some(edit.title)
    ensures edit.SetDescription? ==> r[index].description == Some(edit.description)
    ensures edit.SetUrl? ==> r[index].url == Some(edit.url)
    ensures edit.SetColor? ==> r[index].color == Some(edit.color)
    ensures edit.SetImage? ==> r[index].image == edit.image
  {
    embeds[index := ApplyEmbedEdit(embeds[index], edit)]
  }

  /** The same edit twice is the edit once. */
  lemma UpdateEmbedIdempotent(embeds: seq<DiscordEmbed>, index: int, edit: EmbedEdit)
    requires 0 <= index < |embeds|
    ensures UpdateEmbed(UpdateEmbed(embeds, index, edit), index, edit) == UpdateEmbed(embeds, index, edit)
  {
  }

  /** The image-URL input: an image with that URL, or no image for empty text. */
  function ImageUrlEdit(text: string): (edit: EmbedEdit)
    ensures edit.SetImage?
    ensures edit.image == None <==> text == []
    ensures edit.image != None ==> edit.image.value.url == text
  {
    SetImage(if text != [] then Some(Image(text)) else None)
  }

  /** What an `<input type="color">` reports: '#' and six lower-case hex digits. */
  predicate IsSimpleColor(text: string) {
    && |text| == 7 && text[0] == '#'
    && forall i :: 1 <= i < 7 ==> ('0' <= text[i] <= '9') || ('a' <= text[i] <= 'f')
  }

  /** The colour input: stores hexToDecimal of the picker's value, which is a
      24-bit colour. */
  function ColorEdit(picked: string): (edit: EmbedEdit)
    requires IsSimpleColor(picked)
    ensures edit.SetColor? && 0 <= edit.color <= 0xFFFFFF
    ensures IsHexInput(picked) && HexToDecimal(picked) == Some(edit.color)
  {
    assert IsDigitString(picked[1..], 16) by {
      forall i | 0 <= i < |picked[1..]| ensures IsHexDigit(picked[1..][i]) && DigitValue(picked[1..][i]) < 16 {
        assert picked[1..][i] == picked[i + 1];
      }
    }
    HexColorInRange(picked);
    SetColor(HexToDecimal(picked).value)
  }

  /** The colour input's value: `#${color.toString(16).padStart(6, '0')}`,
      or `#7B68EE` for an embed without a colour. */
  function ColorInputValue(color: Option<int>): (text: string)
    requires color == None || 0 <= color.value
    ensures |text| >= 7 && text[0] == '#'
    ensures (color == None || color.value <= 0xFFFFFF) ==> |text| == 7
    ensures IsDigitString(text[1..], 16)
  {
    if color == None then "#7B68EE"
    else
      var hex := ToBase(color.value, 16);
      assert color.value <= 0xFFFFFF ==> |hex| <= 6 by {
        if color.value <= 0xFFFFFF {
          SixteenToTheSix();
          ToBaseLength(color.value, 16, 6);
        }
      }
      var padded := PadStart(hex, 6, '0');
      PadStartZerosValue(hex, 6, 16);
      assert ("#" + padded)[1..] == padded;
      "#" + padded
  }

  /** toString(16) padded to six digits with '0' is six hex digits that
      read back to the colour. */
  lemma PaddedHexValue(c: int)
    requires 0 <= c <= 0xFFFFFF
    ensures |PadStart(ToBase(c, 16), 6, '0')| == 6
    ensures IsDigitString(PadStart(ToBase(c, 16), 6, '0'), 16)
    ensures FromDigits(PadStart(ToBase(c, 16), 6, '0'), 16) == c
  {
    var hex := ToBase(c, 16);
    SixteenToTheSix();
    ToBaseLength(c, 16, 6);
    PadStartZerosValue(hex, 6, 16);
    FromToBase(c, 16);
  }

  lemma SixteenToTheSix()
    ensures Pow(16, 6) == 0x1000000
  {
    assert Pow(16, 2) == 256;
    assert Pow(16, 4) == 65536;
  }

  /** The picker shows a 24-bit colour as text that hexToDecimal reads back
      to the same colour. */
  lemma ColorRoundTrip(c: int)
    requires 0 <= c <= 0xFFFFFF
    ensures IsHexInput(ColorInputValue(Some(c)))
    ensures HexToDecimal(ColorInputValue(Some(c))) == Some(c)
  {
    var padded := PadStart(ToBase(c, 16), 6, '0');
    PaddedHexValue(c);
    assert StripHash(ColorInputValue(Some(c))) == padded;
  }

  /** An embed without a colour shows the default colour. */
  lemma MissingColorShowsDefault()
    ensures IsHexInput(ColorInputValue(None))
    ensures HexToDecimal(ColorInputValue(None)) == Some(DefaultEmbedColor)
  {
    var digits := StripHash(ColorInputValue(None));
    assert digits == "7B68EE";
    assert IsDigitString(digits, 16);
    assert FromDigits("", 16) == 0;
    assert "7"[..0] == "";
    assert FromDigits("7", 16) == 0x7;
    assert "7B"[..1] == "7";
    assert FromDigits("7B", 16) == 0x7B;
    assert "7B6"[..2] == "7B";
    assert FromDigits("7B6", 16) == 0x7B6;
    assert "7B68"[..3] == "7B6";
    assert FromDigits("7B68", 16) == 0x7B68;
    assert "7B68E"[..4] == "7B68";
    assert FromDigits("7B68E", 16) == 0x7B68E;
    assert "7B68EE"[..5] == "7B68E";
    assert FromDigits("7B68EE", 16) == 0x7B68EE;
  }

  // ---------------------------------------------------------------------------
  // The fields of one embed

  /** The keys of a field the builder's inputs edit. */
  datatype FieldEdit = SetName(name: string) | SetValue(value: string) | SetInline(inline: bool)

  /** `{ ...field, ...updates }` for the one key of `edit`. */
  function ApplyFieldEdit(f: EmbedField, edit: FieldEdit): (r: EmbedField)
    ensures edit.SetName? ==> r == EmbedField(edit.name, f.value, f.inline)
    ensures edit.SetValue? ==> r == EmbedField(f.name, edit.value, f.inline)
    ensures edit.SetInline? ==> r == EmbedField(f.name, f.value, Some(edit.inline))
  {
    match edit
    case SetName(n) => f.(name := n)
    case SetValue(v) => f.(value := v)
    case SetInline(b) => f.(inline := Some(b))
  }

  /** The field list of an embed, an absent one read as empty. */
  function FieldsOf(e: DiscordEmbed): seq<EmbedField> {
    if e.fields == None then [] else e.fields.value
  }

  /** addField(embedIndex): the field list of that embed, created if absent,
      gets the new field at its end; no cap of MaxEmbedFields is applied. */
  function AddField(embeds: seq<DiscordEmbed>, embedIndex: int): (r: seq<DiscordEmbed>)
    requires 0 <= embedIndex < |embeds|
    ensures |r| == |embeds|
    ensures forall j :: 0 <= j < |r| && j != embedIndex ==> r[j] == embeds[j]
    ensures r[embedIndex] == embeds[embedIndex].(fields := Some(FieldsOf(embeds[embedIndex]) + [NewField]))
  {
    var e := embeds[embedIndex];
    embeds[embedIndex := e.(fields := Some(FieldsOf(e) + [NewField]))]
  }

  /** An embed already at MaxEmbedFields fields still gains one. */
  lemma AddFieldPastLimit(embeds: seq<DiscordEmbed>, embedIndex: int)
    requires 0 <= embedIndex < |embeds| && |FieldsOf(embeds[embedIndex])| == MaxEmbedFields
    ensures |FieldsOf(AddField(embeds, embedIndex)[embedIndex])| == MaxEmbedFields + 1
  {
  }

  /** An embed with a field list, and a field index inside it. */
  predicate HasField(embeds: seq<DiscordEmbed>, embedIndex: int, fieldIndex: int) {
    0 <= embedIndex < |embeds| && embeds[embedIndex].fields != None
    && 0 <= fieldIndex < |embeds[embedIndex].fields.value|
  }

  /** updateField(embedIndex, fieldIndex, updates): only that field of that
      embed changes, and only in the edited key. */
  function UpdateField(embeds: seq<DiscordEmbed>, embedIndex: int, fieldIndex: int, edit: FieldEdit): (r: seq<DiscordEmbed>)
    requires HasField(embeds, embedIndex, fieldIndex)
    ensures |r| == |embeds|
    ensures forall j :: 0 <= j < |r| && j != embedIndex ==> r[j] == embeds[j]
    ensures HasField(r, embedIndex, fieldIndex)
    ensures r[embedIndex] == embeds[embedIndex].(fields := r[embedIndex].fields)
    ensures |r[embedIndex].fields.value| == |embeds[embedIndex].fields.value|
    ensures forall k :: 0 <= k < |r[embedIndex].fields.value| && k != fieldIndex ==>
              r[embedIndex].fields.value[k] == embeds[embedIndex].fields.value[k]
    ensures r[embedIndex].fields.value[fieldIndex] == ApplyFieldEdit(embeds[embedIndex].fields.value[fieldIndex], edit)
  {
    var e := embeds[embedIndex];
    var fs := e.fields.value;
    embeds[embedIndex := e.(fields := Some(fs[fieldIndex := ApplyFieldEdit(fs[fieldIndex], edit)]))]
  }

  /** removeField(embedIndex, fieldIndex): the field list of that embed loses
      exactly that field, the others keep their order. */
  function RemoveField(embeds: seq<DiscordEmbed>, embedIndex: int, fieldIndex: int): (r: seq<DiscordEmbed>)
    requires 0 <= embedIndex < |embeds| && embeds[embedIndex].fields != None
    ensures |r| == |embeds|
    ensures forall j :: 0 <= j < |r| && j != embedIndex ==> r[j] == embeds[j]
    ensures r[embedIndex] == embeds[embedIndex].(fields := Some(RemoveAt(embeds[embedIndex].fields.value, fieldIndex)))
  {
    var e := embeds[embedIndex];
    embeds[embedIndex := e.(fields := Some(RemoveAt(e.fields.value, fieldIndex)))]
  }

  /** Removing the field just added gives back the embeds before, once the
      embed has a field list. */
  lemma RemoveFieldUndoesAddField(embeds: seq<DiscordEmbed>, embedIndex: int)
    requires 0 <= embedIndex < |embeds| && embeds[embedIndex].fields != None
    ensures RemoveField(AddField(embeds, embedIndex), embedIndex, |embeds[embedIndex].fields.value|) == embeds
  {
    var fs := embeds[embedIndex].fields.value;
    var grown := AddField(embeds, embedIndex);
    assert grown[embedIndex].fields.value == fs + [NewField];
    assert RemoveAt(fs + [NewField], |fs|) == fs by {
      assert RemoveAt(fs + [NewField], |fs|)[..|fs|] == (fs + [NewField])[..|fs|];
    }
    var r := RemoveField(grown, embedIndex, |fs|);
    assert r[embedIndex] == embeds[embedIndex];
  }

  // ---------------------------------------------------------------------------
  // The builder's handlers, as one action type

  /** One click or keystroke in the builder, with the indices of the embed
      and field it was rendered for. */
  datatype BuilderAction =
    | AddEmbedAction
    | UpdateEmbedAction(index: int, edit: EmbedEdit)
    | RemoveEmbedAction(index: int)
    | AddFieldAction(embedIndex: int)
    | UpdateFieldAction(embedIndex: int, fieldIndex: int, fieldEdit: FieldEdit)
    | RemoveFieldAction(embedIndex: int, fieldIndex: int)

  /** The indices of an action are those of something on screen. */
  predicate Applies(embeds: seq<DiscordEmbed>, action: BuilderAction) {
    match action
    case AddEmbedAction => true
    case UpdateEmbedAction(i, _) => 0 <= i < |embeds|
    case RemoveEmbedAction(i) => 0 <= i < |embeds|
    case AddFieldAction(i) => 0 <= i < |embeds|
    case UpdateFieldAction(i, j, _) => HasField(embeds, i, j)
    case RemoveFieldAction(i, j) => HasField(embeds, i, j)
  }

  /** The list onEmbedsChange receives for an action: only adding and
      removing an embed change the number of embeds. */
  function ApplyBuilderAction(embeds: seq<DiscordEmbed>, action: BuilderAction): (r: seq<DiscordEmbed>)
    requires Applies(embeds, action)
    ensures action.AddEmbedAction? ==> |r| == |embeds| + 1
    ensures action.RemoveEmbedAction? ==> |r| == |embeds| - 1
    ensures !action.AddEmbedAction? && !action.RemoveEmbedAction? ==> |r| == |embeds|
  {
    match action
    case AddEmbedAction => AddEmbed(embeds)
    case UpdateEmbedAction(i, edit) => UpdateEmbed(embeds, i, edit)
    case RemoveEmbedAction(i) => RemoveEmbed(embeds, i)
    case AddFieldAction(i) => AddField(embeds, i)
    case UpdateFieldAction(i, j, edit) => UpdateField(embeds, i, j, edit)
    case RemoveFieldAction(i, j) => RemoveField(embeds, i, j)
  }
}
