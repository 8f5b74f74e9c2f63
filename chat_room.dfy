/** The two small state machines of the `ChatRoom` component (src/components/ChatRoom.tsx):
    dragging the resize bar to change the textarea height, and submitting the message form.
    Rendering, scrolling and listener registration are not part of this model. */
module ChatRoomComponent {
  import opened Common

  const MinHeight: int := 100
  const MaxHeight: int := 400
  const InitialHeight: int := 100
  const SendFailureText: string := "Failed to send message. Please try again."

  function Min(a: int, b: int): (r: int) { if a <= b then a else b }
  function Max(a: int, b: int): (r: int) { if a >= b then a else b }

  /** `Math.min(Math.max(h, 100), 400)`: the height the textarea takes for a requested height. */
  function ClampHeight(h: int): (r: int)
    ensures MinHeight <= r <= MaxHeight
    ensures MinHeight <= h <= MaxHeight ==> r == h
    ensures h < MinHeight ==> r == MinHeight
    ensures h > MaxHeight ==> r == MaxHeight
  {
    Min(Max(h, MinHeight), MaxHeight)
  }

  /** Height and last pointer position after a run of `mousemove` events while resizing,
      starting from `height` with the pointer last seen at `lastY`. */
  function Drag(height: int, lastY: int, ys: seq<int>): (r: (int, int))
    ensures ys == [] ==> r == (height, lastY)
    ensures ys != [] ==> r.1 == ys[|ys| - 1] && MinHeight <= r.0 <= MaxHeight
    decreases |ys|
  {
    if ys == [] then (height, lastY)
    else Drag(ClampHeight(height + (lastY - ys[0])), ys[0], ys[1..])
  }

  /** Whatever the pointer does, the height stays within [100, 400]. */
  lemma DragStaysInBounds(height: int, lastY: int, ys: seq<int>)
    requires MinHeight <= height <= MaxHeight
    ensures MinHeight <= Drag(height, lastY, ys).0 <= MaxHeight
    ensures ys != [] ==> Drag(height, lastY, ys).1 == ys[|ys| - 1]
  {
  }

  /** While the pointer stays inside the band that keeps the height within bounds, the
      textarea follows it exactly: the total growth is how far the pointer moved up. */
  lemma {:induction false} DragFollowsPointer(height: int, lastY: int, ys: seq<int>)
    requires ys != []
    requires forall k :: 0 <= k < |ys| ==> MinHeight <= height + (lastY - ys[k]) <= MaxHeight
    ensures Drag(height, lastY, ys) == (height + (lastY - ys[|ys| - 1]), ys[|ys| - 1])
    decreases |ys|
  {
    var h1 := ClampHeight(height + (lastY - ys[0]));
    assert h1 == height + (lastY - ys[0]);
    if |ys| > 1 {
      forall k | 0 <= k < |ys| - 1
        ensures MinHeight <= h1 + (ys[0] - ys[1..][k]) <= MaxHeight
      {
        assert ys[1..][k] == ys[k + 1];
      }
      DragFollowsPointer(h1, ys[0], ys[1..]);
    }
  }

  /** The code points `String.prototype.trim` removes: ECMAScript WhiteSpace and LineTerminator. */
  predicate IsTrimmable(c: char)
  {
    || c == '\t' || c == '\n' || c == '\U{000B}' || c == '\U{000C}' || c == '\r' || c == ' '
    || c == '\U{00A0}' || c == '\U{1680}' || ('\U{2000}' <= c <= '\U{200A}')
    || c == '\U{2028}' || c == '\U{2029}' || c == '\U{202F}' || c == '\U{205F}'
    || c == '\U{3000}' || c == '\U{FEFF}'
  }

  /** Whether a text holds nothing but trimmable code points. */
  predicate IsBlank(s: string)
  {
    forall k :: 0 <= k < |s| ==> IsTrimmable(s[k])
  }

  /** `s` without its leading trimmable code points. */
  function TrimStart(s: string): (r: string)
    ensures |r| <= |s| && r == s[|s| - |r|..]
    ensures IsBlank(s[..|s| - |r|])
    ensures r == [] || !IsTrimmable(r[0])
  {
    if s != [] && IsTrimmable(s[0]) then TrimStart(s[1..]) else s
  }

  /** `s` without its trailing trimmable code points. */
  function TrimEnd(s: string): (r: string)
    ensures |r| <= |s| && r == s[..|r|]
    ensures IsBlank(s[|r|..])
    ensures r == [] || !IsTrimmable(r[|r| - 1])
  {
    if s != [] && IsTrimmable(s[|s| - 1]) then TrimEnd(s[..|s| - 1]) else s
  }

  /** `s.trim()`. */
  function Trim(s: string): (r: string)
    ensures var n := |s| - |TrimStart(s)|;
      && n + |r| <= |s| && r == s[n..n + |r|]
      && IsBlank(s[..n]) && IsBlank(s[n + |r|..])
    ensures r == [] || (!IsTrimmable(r[0]) && !IsTrimmable(r[|r| - 1]))
  {
    var t := TrimStart(s);
    var r := TrimEnd(t);
    SlicesCompose(s, t, r);
    r
  }

  /** Cutting a suffix `t` off `s`, then a prefix `r` off `t`, leaves `r` where it was in `s`. */
  lemma SlicesCompose(s: string, t: string, r: string)
    requires |t| <= |s| && t == s[|s| - |t|..]
    requires |r| <= |t| && r == t[..|r|]
    requires IsBlank(t[|r|..])
    ensures var n := |s| - |t|; r == s[n..n + |r|] && IsBlank(s[n + |r|..])
  {
  }

  /** `!s.trim()` holds exactly for the texts made only of whitespace (the empty text included). */
  lemma TrimEmptyIffBlank(s: string)
    ensures Trim(s) == [] <==> IsBlank(s)
  {
  }

  /** The local state of one mounted `ChatRoom`: the draft, the send error, the textarea height
      and the two refs used while dragging the resize bar. */
  class ChatRoom {
    const roomId: string
    var newMessage: string
    var sendError: Option<string>
    var textareaHeight: int
    var isResizing: bool
    var lastY: int

    /** The height is always one the clamp can produce. */
    ghost predicate Valid()
      reads this
    {
      MinHeight <= textareaHeight <= MaxHeight
    }

    /** `useState('')`, `useState(null)`, `useState(100)`, `useRef(false)`, `useRef(0)`. */
    constructor (roomId: string)
      ensures Valid()
      ensures this.roomId == roomId && newMessage == [] && sendError == None
      ensures textareaHeight == InitialHeight && !isResizing && lastY == 0
    {
      this.roomId := roomId;
      newMessage := [];
      sendError := None;
      textareaHeight := InitialHeight;
      isResizing := false;
      lastY := 0;
    }

    /** `handleMouseDown`: start resizing from the pointer's position. */
    method MouseDown(clientY: int)
      requires Valid()
      modifies this
      ensures Valid()
      ensures isResizing && lastY == clientY
      ensures textareaHeight == old(textareaHeight)
      ensures newMessage == old(newMessage) && sendError == old(sendError)
    {
      isResizing := true;
      lastY := clientY;
    }

    /** `handleMouseMove`: while resizing, grow by how far the pointer moved up, clamped. */
    method MouseMove(clientY: int)
      requires Valid()
      modifies this
      ensures Valid()
      ensures old(isResizing) ==>
        (textareaHeight, lastY) == Drag(old(textareaHeight), old(lastY), [clientY])
      ensures old(isResizing) ==>
        lastY == clientY && textareaHeight == ClampHeight(old(textareaHeight) + (old(lastY) - clientY))
      ensures !old(isResizing) ==> textareaHeight == old(textareaHeight) && lastY == old(lastY)
      ensures isResizing == old(isResizing)
      ensures newMessage == old(newMessage) && sendError == old(sendError)
    {
      if !isResizing {
        return;
      }
      var delta := lastY - clientY;
      textareaHeight := ClampHeight(textareaHeight + delta);
      lastY := clientY;
    }

    /** `handleMouseUp`: stop resizing. */
    method MouseUp()
      requires Valid()
      modifies this
      ensures Valid()
      ensures !isResizing
      ensures textareaHeight == old(textareaHeight) && lastY == old(lastY)
      ensures newMessage == old(newMessage) && sendError == old(sendError)
    {
      isResizing := false;
    }

    /** The textarea's `onChange`: the draft becomes what the user typed. */
    method Edit(text: string)
      requires Valid()
      modifies this
      ensures Valid()
      ensures newMessage == text
      ensures sendError == old(sendError)
      ensures textareaHeight == old(textareaHeight) && isResizing == old(isResizing) && lastY == old(lastY)
    {
      newMessage := text;
    }

    /** `handleSend` with the outcome of `matrixService.sendMessage` given as `delivered`.
        Returns the room and text handed to `sendMessage(roomId, newMessage)`, or None when the
        guard returned early. */
    method Send(delivered: bool) returns (sent: Option<(string, string)>)
      requires Valid()
      modifies this
      ensures Valid()
      ensures IsBlank(old(newMessage)) ==>
        sent == None && newMessage == old(newMessage) && sendError == old(sendError)
      ensures !IsBlank(old(newMessage)) ==> sent == Some((roomId, old(newMessage)))
      ensures !IsBlank(old(newMessage)) && delivered ==> newMessage == [] && sendError == None
      ensures !IsBlank(old(newMessage)) && !delivered ==>
        newMessage == old(newMessage) && sendError == Some(SendFailureText)
      ensures textareaHeight == old(textareaHeight) && isResizing == old(isResizing) && lastY == old(lastY)
    {
      TrimEmptyIffBlank(newMessage);
      if Trim(newMessage) == [] {
        return None;
      }
      sendError := None;
      sent := Some((roomId, newMessage));
      if delivered {
        newMessage := [];
      } else {
        sendError := Some(SendFailureText);
      }
    }
  }
}
