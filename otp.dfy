/** The one-time-password input: a row of single-character slots with typing,
    backspace navigation and paste. The slot array is the one the parent
    screen holds; focus is reported as the index of the slot that receives
    it. */
module OtpInput {
  import opened Types
  import opened Text

  /** `val.substring(val.length - 1)`: the last character typed, or "" when
      the field was cleared. */
  function LastChar(val: string): (r: string)
    ensures |r| <= 1
    ensures r == "" <==> val == ""
    ensures val != "" ==> r == [val[|val| - 1]]
  {
    if val == [] then "" else val[|val| - 1..]
  }

  /** The slots after typing `val` into slot `index`: unchanged when `val` is
      not numeric, otherwise that one slot holds the last character typed.
      `isNumeric` stands for `!isNaN(Number(val))`. */
  function Changed(slots: seq<string>, index: nat, val: string, isNumeric: string -> bool): (r: seq<string>)
    requires index < |slots|
    ensures |r| == |slots|
    ensures !isNumeric(val) ==> r == slots
    ensures isNumeric(val) ==> r[index] == LastChar(val)
    ensures forall j :: 0 <= j < |slots| && j != index ==> r[j] == slots[j]
  {
    if isNumeric(val) then slots[index := LastChar(val)] else slots
  }

  /** Where focus goes after typing: to the next slot when something numeric
      was typed and this is not the last slot. */
  function ChangeFocus(index: nat, val: string, isNumeric: string -> bool, length: nat): (r: Option<nat>)
    ensures r.Some? <==> isNumeric(val) && val != "" && index + 1 < length
    ensures r.Some? ==> r.value == index + 1 && r.value < length
  {
    if isNumeric(val) && val != "" && index + 1 < length then Some(index + 1) else None
  }

  /** `handleKeyDown`: Backspace on an empty slot that has a slot before it
      moves focus back one. */
  function BackspaceFocus(slots: seq<string>, index: nat, key: string): (r: Option<nat>)
    requires index < |slots|
    ensures r.Some? <==> key == "Backspace" && slots[index] == "" && index > 0
    ensures r.Some? ==> r.value + 1 == index
  {
    if key == "Backspace" && slots[index] == "" && index > 0 then Some(index - 1) else None
  }

  /** The slots after pasting `data`: the first `|slots|` pasted characters
      are taken; slot `j` below that count holds pasted character `j` when it
      is numeric and keeps its value otherwise; later slots stay. */
  function Pasted(slots: seq<string>, data: string, isNumeric: string -> bool): (r: seq<string>)
    ensures |r| == |slots|
    ensures forall j :: 0 <= j < |slots| && j < |data| && isNumeric([data[j]]) ==> r[j] == [data[j]]
    ensures forall j :: 0 <= j < |slots| && !(j < |data| && isNumeric([data[j]])) ==> r[j] == slots[j]
  {
    seq(|slots|, j requires 0 <= j < |slots| =>
      if j < |data| && isNumeric([data[j]]) then [data[j]] else slots[j])
  }

  /** `Math.min(pastedData.length, length - 1)`, with the pasted data already
      cut to `length` characters. */
  function PasteFocus(dataLength: nat, length: nat): (r: int)
    ensures length >= 1 ==> 0 <= r < length
    ensures r <= dataLength
    ensures length >= 1 && dataLength < length ==> r == dataLength
    ensures dataLength >= length ==> r == length - 1
  {
    var pasted := if dataLength < length then dataLength else length;
    if pasted < length - 1 then pasted else length - 1
  }

  /** Typing keeps every slot at one character at most. */
  lemma ChangeKeepsSingleChars(slots: seq<string>, index: nat, val: string, isNumeric: string -> bool)
    requires index < |slots| && AtMostOneChar(slots)
    ensures AtMostOneChar(Changed(slots, index, val, isNumeric))
  {
  }

  /** Pasting keeps every slot at one character at most. */
  lemma PasteKeepsSingleChars(slots: seq<string>, data: string, isNumeric: string -> bool)
    requires AtMostOneChar(slots)
    ensures AtMostOneChar(Pasted(slots, data, isNumeric))
  {
  }

  /** Pasting a code of all digits at least as long as the row fills every
      slot, so the joined code is exactly as long as the row. */
  lemma PasteFillsRow(slots: seq<string>, data: string, isNumeric: string -> bool)
    requires AtMostOneChar(slots) && |data| >= |slots|
    requires forall j :: 0 <= j < |slots| ==> isNumeric([data[j]])
    ensures |Join(Pasted(slots, data, isNumeric))| == |slots|
  {
    var r := Pasted(slots, data, isNumeric);
    assert forall j :: 0 <= j < |r| ==> r[j] == [data[j]];
    JoinLengthCountsFilled(r);
  }

  /** `handleChange` on slot `index`; the result is the slot to focus, if any. */
  method HandleChange(otp: array<string>, index: nat, val: string, isNumeric: string -> bool)
    returns (focus: Option<nat>)
    requires index < otp.Length
    modifies otp
    ensures otp[..] == Changed(old(otp[..]), index, val, isNumeric)
    ensures focus == ChangeFocus(index, val, isNumeric, otp.Length)
  {
    if !isNumeric(val) {
      return None;
    }
    otp[index] := LastChar(val);
    focus := ChangeFocus(index, val, isNumeric, otp.Length);
  }

  /** `handlePaste`: walks the pasted characters, writing each numeric one
      into its slot; the result is the slot to focus. */
  method HandlePaste(otp: array<string>, data: string, isNumeric: string -> bool)
    returns (focus: int)
    modifies otp
    ensures otp[..] == Pasted(old(otp[..]), data, isNumeric)
    ensures focus == PasteFocus(|data|, otp.Length)
    ensures otp.Length >= 1 ==> 0 <= focus < otp.Length
  {
    var count := if |data| < otp.Length then |data| else otp.Length;
    var pasted := data[..count];
    var i := 0;
    while i < count
      invariant 0 <= i <= count
      invariant forall j :: 0 <= j < i && isNumeric([pasted[j]]) ==> otp[j] == [pasted[j]]
      invariant forall j :: 0 <= j < i && !isNumeric([pasted[j]]) ==> otp[j] == old(otp[j])
      invariant forall j :: i <= j < otp.Length ==> otp[j] == old(otp[j])
    {
      if isNumeric([pasted[i]]) {
        otp[i] := [pasted[i]];
      }
      i := i + 1;
    }
    focus := if count < otp.Length - 1 then count else otp.Length - 1;
  }
}
