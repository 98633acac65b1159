/** `make_inline_keyboard`: a list of labels laid out in rows of `chunks` buttons, each
    button's callback data being its own label. */
module Keyboard {

  /** `InlineKeyboardButton::callback(text, data)`. */
  datatype Button = Button(text: string, data: string)

  /** The rows of an inline keyboard, top to bottom. */
  type Markup = seq<seq<Button>>

  /** One row: a button per label, with the label as its callback data. */
  function Row(labels: seq<string>): (row: seq<Button>)
    ensures |row| == |labels|
    ensures forall i :: 0 <= i < |labels| ==> row[i] == Button(labels[i], labels[i])
  {
    seq(|labels|, i requires 0 <= i < |labels| => Button(labels[i], labels[i]))
  }

  /** The keyboard for `list`, cut the way `list.chunks(chunks)` cuts it. */
  function Layout(list: seq<string>, chunks: nat): Markup
    requires chunks > 0
    decreases |list|
  {
    if list == [] then []
    else if |list| <= chunks then [Row(list)]
    else [Row(list[..chunks])] + Layout(list[chunks..], chunks)
  }

  /** The shape of the layout: no input gives no rows, every row but the last is full,
      the last holds 1 to `chunks` buttons, and each button's callback data is its label. */
  lemma {:induction false} LayoutShape(list: seq<string>, chunks: nat)
    requires chunks > 0
    ensures var kb := Layout(list, chunks);
      && (kb == [] <==> list == [])
      && (forall r :: 0 <= r < |kb| - 1 ==> |kb[r]| == chunks)
      && (kb != [] ==> 1 <= |kb[|kb| - 1]| <= chunks)
      && (forall r, b :: 0 <= r < |kb| && 0 <= b < |kb[r]| ==> kb[r][b].data == kb[r][b].text)
    decreases |list|
  {
    if |list| > chunks {
      LayoutShape(list[chunks..], chunks);
      var kb := Layout(list, chunks);
      var tail := Layout(list[chunks..], chunks);
      assert kb[1..] == tail;
      forall r | 1 <= r < |kb|
        ensures kb[r] == tail[r - 1]
      {
      }
    }
  }

  /** The labels of one row, left to right. */
  function Texts(row: seq<Button>): (texts: seq<string>)
    ensures |texts| == |row|
  {
    seq(|row|, i requires 0 <= i < |row| => row[i].text)
  }

  /** The labels of a keyboard read row by row. */
  function Labels(kb: Markup): seq<string>
    decreases |kb|
  {
    if kb == [] then [] else Texts(kb[0]) + Labels(kb[1..])
  }

  /** Read row by row, the keyboard gives back the input list in order. */
  lemma {:induction false} LayoutLabels(list: seq<string>, chunks: nat)
    requires chunks > 0
    ensures Labels(Layout(list, chunks)) == list
    decreases |list|
  {
    if list == [] {
    } else if |list| <= chunks {
      RowTexts(list);
      LabelsCons(Row(list), []);
    } else {
      LayoutLabels(list[chunks..], chunks);
      RowTexts(list[..chunks]);
      LabelsCons(Row(list[..chunks]), Layout(list[chunks..], chunks));
      assert list[..chunks] + list[chunks..] == list;
    }
  }

  lemma RowTexts(labels: seq<string>)
    ensures Texts(Row(labels)) == labels
  {
  }

  lemma LabelsCons(row: seq<Button>, kb: Markup)
    ensures Labels([row] + kb) == Texts(row) + Labels(kb)
  {
    assert ([row] + kb)[1..] == kb;
  }

  /** The first row of a non-empty keyboard and the keyboard for what follows it. */
  lemma LayoutStep(list: seq<string>, chunks: nat, end: nat)
    requires chunks > 0 && list != []
    requires end == if |list| <= chunks then |list| else chunks
    ensures Layout(list, chunks) == [Row(list[..end])] + Layout(list[end..], chunks)
  {
    if |list| <= chunks {
      assert list[..end] == list;
      assert list[end..] == [];
    }
  }

  /** `make_inline_keyboard(list, chunks)`; `chunks` must not be 0 (`slice::chunks` panics). */
  method MakeInlineKeyboard(list: seq<string>, chunks: nat) returns (keyboard: Markup)
    requires chunks > 0
    ensures keyboard == Layout(list, chunks)
  {
    keyboard := [];
    var rest := list;
    while rest != []
      invariant keyboard + Layout(rest, chunks) == Layout(list, chunks)
      decreases |rest|
    {
      var end := if |rest| <= chunks then |rest| else chunks;
      var row := Row(rest[..end]);
      var tail := Layout(rest[end..], chunks);
      LayoutStep(rest, chunks, end);
      assert (keyboard + [row]) + tail == keyboard + ([row] + tail);
      keyboard := keyboard + [row];
      rest := rest[end..];
    }
  }
}
