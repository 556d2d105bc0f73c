/** The booth's card reader types a card number as keystrokes. The poller collects digits into a
    buffer, ends a number at Enter or after an idle gap, drops short ones, and hands on a card
    that repeats within the cooldown only once. */
module OmnikeyPollers {
  import opened Text
  import opened CardPoller

  /** What the event loop wakes up for. Idle is the timeout, armed while digits are buffered. */
  datatype Key = Digit(c: char) | Enter | OtherKey | Idle | Unplugged

  datatype Typed = Typed(key: Key, now: int)

  /** The poller's fields; `scans` and `taps` record the numbers read and the cards posted. */
  datatype Keyboard = Keyboard(buffer: string, last: Option<Tapped>, scans: seq<string>,
                               taps: seq<Tapped>)

  const UNTOUCHED := Keyboard("", None, [], [])

  function Deduped(k: Keyboard, card: string, now: int): Keyboard {
    if k.last.Some? && k.last.value.card == card && now - k.last.value.at < COOLDOWN then k
    else k.(last := Some(Tapped(card, now)), taps := k.taps + [Tapped(card, now)])
  }

  function Flush(k: Keyboard, minLen: nat, now: int): Keyboard {
    if |k.buffer| < minLen then k.(buffer := "")
    else Deduped(k.(buffer := "", scans := k.scans + [k.buffer]), k.buffer, now)
  }

  function Press(k: Keyboard, minLen: nat, typed: Typed): Keyboard {
    match typed.key
    case Digit(c) => k.(buffer := k.buffer + [c])
    case OtherKey => k
    case Unplugged => k.(buffer := "")
    case _ => if k.buffer == "" then k else Flush(k, minLen, typed.now)
  }

  function PressAll(k: Keyboard, minLen: nat, keys: seq<Typed>): Keyboard
    decreases |keys|
  {
    if keys == [] then k else PressAll(Press(k, minLen, keys[0]), minLen, keys[1..])
  }

  class OmnikeyPoller {
    const minCardLen: nat
    var buffer: string
    var lastCard: Option<string>
    var lastCardAt: int
    var scans: seq<string>
    var taps: seq<Tapped>

    function View(): Keyboard
      reads this
    {
      var last := if lastCard.Some? then Some(Tapped(lastCard.value, lastCardAt)) else None;
      Keyboard(buffer, last, scans, taps)
    }

    constructor (minCardLen: nat)
      ensures View() == UNTOUCHED && this.minCardLen == minCardLen
    {
      this.minCardLen := minCardLen;
      buffer, lastCard, lastCardAt, scans, taps := "", None, 0, [], [];
    }

    method HandleCard(card: string, now: int)
      modifies this
      ensures View() == Deduped(old(View()), card, now)
    {
      if lastCard == Some(card) && now - lastCardAt < COOLDOWN { return; }
      lastCard, lastCardAt := Some(card), now;
      taps := taps + [Tapped(card, now)];
    }

    method FlushBuffer(now: int)
      modifies this
      ensures View() == Flush(old(View()), minCardLen, now)
    {
      var card := buffer;
      buffer := "";
      if |card| < minCardLen { return; }
      scans := scans + [card];
      HandleCard(card, now);
    }

    method OnKey(typed: Typed)
      modifies this
      ensures View() == Press(old(View()), minCardLen, typed)
    {
      match typed.key
      case Digit(c) => buffer := buffer + [c];
      case Enter => if buffer != "" { FlushBuffer(typed.now); }
      case Idle => if buffer != "" { FlushBuffer(typed.now); }
      case OtherKey =>
      case Unplugged => buffer := "";
    }
  }

  // ---------------------------------------------------------------- the cooldown

  ghost predicate LastIsTapped(k: Keyboard) {
    && Spaced(k.taps)
    && (k.last.None? <==> k.taps == [])
    && (k.last.Some? ==> k.last.value == k.taps[|k.taps| - 1])
  }

  lemma DedupedIsRepeated(k: Keyboard, card: string, now: int)
    requires LastIsTapped(k)
    ensures LastIsTapped(Deduped(k, card, now))
    ensures Deduped(k, card, now).taps
         == if Repeated(k.taps, card, now) then k.taps else k.taps + [Tapped(card, now)]
  {
  }

  /** Over any keystrokes and clocks the poller posts exactly when the lane's protocol does, so
      equal cards posted back to back are a cooldown apart. */
  lemma {:induction false} TapsAreSpaced(k: Keyboard, minLen: nat, keys: seq<Typed>)
    requires LastIsTapped(k)
    ensures LastIsTapped(PressAll(k, minLen, keys))
    decreases |keys|
  {
    if keys == [] {
    } else {
      PressKeepsLast(k, minLen, keys[0]);
      TapsAreSpaced(Press(k, minLen, keys[0]), minLen, keys[1..]);
    }
  }

  lemma PressKeepsLast(k: Keyboard, minLen: nat, typed: Typed)
    requires LastIsTapped(k)
    ensures LastIsTapped(Press(k, minLen, typed))
  {
    if (typed.key.Enter? || typed.key.Idle?) && |k.buffer| >= minLen {
      DedupedIsRepeated(k.(buffer := "", scans := k.scans + [k.buffer]), k.buffer, typed.now);
    }
  }

  // ---------------------------------------------------------------- reading back

  predicate Ends(key: Key) { key.Enter? || key.Idle? }

  /** The keystrokes type `card`: its digits in order, with other keys anywhere between. */
  predicate Types(keys: seq<Typed>, card: string)
    decreases |keys|
  {
    if keys == [] then card == ""
    else if keys[0].key.OtherKey? then Types(keys[1..], card)
    else card != "" && keys[0].key == Digit(card[0]) && Types(keys[1..], card[1..])
  }

  lemma {:induction false} TypingFillsBuffer(k: Keyboard, minLen: nat, keys: seq<Typed>, card: string)
    requires Types(keys, card)
    ensures PressAll(k, minLen, keys) == k.(buffer := k.buffer + card)
    decreases |keys|
  {
    if keys == [] {
    } else if keys[0].key.OtherKey? {
      TypingFillsBuffer(k, minLen, keys[1..], card);
    } else {
      var k' := Press(k, minLen, keys[0]);
      TypingFillsBuffer(k', minLen, keys[1..], card[1..]);
      assert k'.buffer + card[1..] == k.buffer + card;
    }
  }

  lemma {:induction false} PressAllConcat(k: Keyboard, minLen: nat, a: seq<Typed>, b: seq<Typed>)
    ensures PressAll(k, minLen, a + b) == PressAll(PressAll(k, minLen, a), minLen, b)
    decreases |a|
  {
    if a == [] {
      assert a + b == b;
    } else {
      assert (a + b)[1..] == a[1..] + b;
      PressAllConcat(Press(k, minLen, a[0]), minLen, a[1..], b);
    }
  }

  /** A number typed on an empty buffer and ended by Enter or an idle gap is read as typed, or
      dropped as too short; either way the buffer is empty again for the next one. */
  lemma TypedCardIsRead(k: Keyboard, minLen: nat, keys: seq<Typed>, card: string, end: Typed)
    requires k.buffer == "" && card != "" && Types(keys, card) && Ends(end.key)
    ensures var k' := PressAll(k, minLen, keys + [end]);
      && k'.buffer == ""
      && k'.scans == k.scans + if |card| < minLen then [] else [card]
  {
    PressAllConcat(k, minLen, keys, [end]);
    TypingFillsBuffer(k, minLen, keys, card);
    var k1 := PressAll(k, minLen, keys);
    assert k.buffer + card == card;
    assert PressAll(k1, minLen, [end]) == PressAll(Press(k1, minLen, end), minLen, []);
  }

  /** A number that is long enough is posted, unless it is the one posted last within the cooldown. */
  lemma TypedCardIsPosted(k: Keyboard, minLen: nat, keys: seq<Typed>, card: string, end: Typed)
    requires k.buffer == "" && card != "" && Types(keys, card) && Ends(end.key) && LastIsTapped(k)
    ensures PressAll(k, minLen, keys + [end]).taps
         == if |card| < minLen || Repeated(k.taps, card, end.now) then k.taps
            else k.taps + [Tapped(card, end.now)]
  {
    PressAllConcat(k, minLen, keys, [end]);
    TypingFillsBuffer(k, minLen, keys, card);
    var k1 := PressAll(k, minLen, keys);
    assert k.buffer + card == card;
    assert PressAll(k1, minLen, [end]) == PressAll(Press(k1, minLen, end), minLen, []);
    DedupedIsRepeated(k1.(buffer := "", scans := k1.scans + [card]), card, end.now);
  }

  /** Digits typed before the reader is pulled out do not become part of a later number, and an Enter
      without digits is no number. */
  lemma UnpluggedForgets(k: Keyboard, minLen: nat, keys: seq<Typed>, card: string, now: int, enter: Typed)
    requires k.buffer == "" && Types(keys, card) && Ends(enter.key)
    ensures PressAll(k, minLen, keys + [Typed(Unplugged, now), enter]) == k
  {
    PressAllConcat(k, minLen, keys, [Typed(Unplugged, now), enter]);
    TypingFillsBuffer(k, minLen, keys, card);
    var k1 := PressAll(k, minLen, keys);
    assert [Typed(Unplugged, now), enter][1..] == [enter];
    assert PressAll(k1, minLen, [Typed(Unplugged, now), enter]) == PressAll(k, minLen, [enter]);
    assert PressAll(k, minLen, [enter]) == PressAll(Press(k, minLen, enter), minLen, []);
  }

  datatype Swipe = Swipe(card: string, keys: seq<Typed>, end: Typed)
  {
    predicate Valid() { card != "" && Types(keys, card) && Ends(end.key) }
  }

  function Stream(swipes: seq<Swipe>): seq<Typed> {
    if swipes == [] then [] else (swipes[0].keys + [swipes[0].end]) + Stream(swipes[1..])
  }

  function LongEnough(swipes: seq<Swipe>, minLen: nat): seq<string> {
    if swipes == [] then []
    else (if |swipes[0].card| < minLen then [] else [swipes[0].card]) + LongEnough(swipes[1..], minLen)
  }

  /** Any number of swipes, stray keys included, read back as exactly the long enough numbers in
      order. */
  lemma {:induction false} SwipesReadBack(k: Keyboard, minLen: nat, swipes: seq<Swipe>)
    requires k.buffer == "" && forall i :: 0 <= i < |swipes| ==> swipes[i].Valid()
    ensures PressAll(k, minLen, Stream(swipes)).scans == k.scans + LongEnough(swipes, minLen)
    decreases |swipes|
  {
    if swipes == [] {
      assert k.scans + [] == k.scans;
    } else {
      var k' := FirstSwipe(k, minLen, swipes);
      SwipesReadBack(k', minLen, swipes[1..]);
      assert k'.scans + LongEnough(swipes[1..], minLen) == k.scans + LongEnough(swipes, minLen);
    }
  }

  /** In particular from the poller's start on. */
  lemma StartReadsBack(minLen: nat, swipes: seq<Swipe>)
    requires forall i :: 0 <= i < |swipes| ==> swipes[i].Valid()
    ensures PressAll(UNTOUCHED, minLen, Stream(swipes)).scans == LongEnough(swipes, minLen)
    ensures LastIsTapped(UNTOUCHED)
  {
    SwipesReadBack(UNTOUCHED, minLen, swipes);
    assert [] + LongEnough(swipes, minLen) == LongEnough(swipes, minLen);
  }

  lemma FirstSwipe(k: Keyboard, minLen: nat, swipes: seq<Swipe>) returns (k': Keyboard)
    requires k.buffer == "" && swipes != [] && swipes[0].Valid()
    ensures k'.buffer == "" && k'.scans == k.scans + if |swipes[0].card| < minLen then [] else [swipes[0].card]
    ensures PressAll(k, minLen, Stream(swipes)) == PressAll(k', minLen, Stream(swipes[1..]))
  {
    var s := swipes[0];
    k' := PressAll(k, minLen, s.keys + [s.end]);
    TypedCardIsRead(k, minLen, s.keys, s.card, s.end);
    PressAllConcat(k, minLen, s.keys + [s.end], Stream(swipes[1..]));
  }
}
