/** The home page's hidden shortcut: every key press is appended to a window of the last
    ten keys, and the page navigates to the secret page when the window spells the Konami
    code, ignoring letter case. */
module Konami {

  const KONAMI_CODE: seq<string> := [
    "ArrowUp", "ArrowUp", "ArrowDown", "ArrowDown",
    "ArrowLeft", "ArrowRight", "ArrowLeft", "ArrowRight", "b", "a"
  ]

  const WINDOW := 10

  function LowerChar(c: char): char
  {
    if 'A' <= c <= 'Z' then (c as int + 32) as char else c
  }

  /** `toLowerCase`, for the ASCII letters. */
  function ToLower(s: string): (r: string)
    ensures |r| == |s| && forall i :: 0 <= i < |s| ==> r[i] == LowerChar(s[i])
  {
    seq(|s|, i requires 0 <= i < |s| => LowerChar(s[i]))
  }

  /** The last `n` elements of `s`, or all of it when it is shorter. */
  function LastN<T>(s: seq<T>, n: nat): (r: seq<T>)
    ensures |r| == if |s| <= n then |s| else n
  {
    if |s| <= n then s else s[|s| - n..]
  }

  /** The window spells the code: ten keys, each equal to its code entry up to case. */
  predicate Matches(window: seq<string>)
  {
    |window| == WINDOW
    && forall i :: 0 <= i < WINDOW ==> ToLower(window[i]) == ToLower(KONAMI_CODE[i])
  }

  /** The new window, and whether the handler navigates to `/secret`. */
  datatype KeyResult = KeyResult(window: seq<string>, navigate: bool)

  /** The window update of the keydown handler: append the key, and drop the oldest key
      once there are more than ten. */
  function PushKey(window: seq<string>, key: string): (r: seq<string>)
    ensures |window| <= WINDOW ==> r == LastN(window + [key], WINDOW)
    ensures |window| <= WINDOW ==> |r| <= WINDOW && r[|r| - 1] == key
  {
    var newSequence := window + [key];
    if |newSequence| > WINDOW then newSequence[1..] else newSequence
  }

  /** The keydown handler: update the window, then navigate when it spells the code. */
  function HandleKeyDown(window: seq<string>, key: string): (r: KeyResult)
    ensures r.window == PushKey(window, key)
    ensures r.navigate <==> Matches(r.window)
    ensures |r.window| < WINDOW ==> !r.navigate
  {
    var newSequence := PushKey(window, key);
    KeyResult(newSequence, Matches(newSequence))
  }

  /** The window after the page has seen `keys`, starting from an empty one. */
  function WindowAfter(keys: seq<string>): seq<string>
  {
    if keys == [] then []
    else PushKey(WindowAfter(keys[..|keys| - 1]), keys[|keys| - 1])
  }

  /** Trimming before appending a key keeps the same last `n` keys. */
  lemma LastNAppend<T>(s: seq<T>, x: T, n: nat)
    requires n > 0
    ensures LastN(LastN(s, n) + [x], n) == LastN(s + [x], n)
  {
    if |s| > n {
      assert s[|s| - n..] + [x] == (s + [x])[|s| - n..];
      assert (s[|s| - n..] + [x])[1..] == (s + [x])[|s| + 1 - n..];
    }
  }

  /** After any keys, the window holds the last min(n, 10) of them in the order pressed. */
  lemma {:induction false} WindowIsLastKeys(keys: seq<string>)
    ensures WindowAfter(keys) == LastN(keys, WINDOW)
  {
    if keys != [] {
      var init := keys[..|keys| - 1];
      var last := keys[|keys| - 1];
      WindowIsLastKeys(init);
      var w := WindowAfter(init);
      assert |w| <= WINDOW;
      assert WindowAfter(keys) == PushKey(w, last) == LastN(w + [last], WINDOW);
      LastNAppend(init, last, WINDOW);
      assert init + [last] == keys;
    }
  }

  /** The last ten keys of `keys` spell the code, up to case. */
  predicate EndsWithCode(keys: seq<string>)
  {
    |keys| >= WINDOW
    && forall i :: 0 <= i < WINDOW ==> ToLower(keys[|keys| - WINDOW + i]) == ToLower(KONAMI_CODE[i])
  }

  /** The ten-key window of a key history matches exactly when the history ends in the code. */
  lemma LastTenMatch(keys: seq<string>)
    ensures Matches(LastN(keys, WINDOW)) <==> EndsWithCode(keys)
  {
    var w := LastN(keys, WINDOW);
    if |keys| >= WINDOW {
      assert forall i :: 0 <= i < WINDOW ==> w[i] == keys[|keys| - WINDOW + i];
    }
  }

  /** The handler navigates on a key exactly when that key completes the code: at least ten
      keys so far and the last ten match it up to case. */
  lemma NavigatesExactlyOnCode(keys: seq<string>, key: string)
    ensures HandleKeyDown(WindowAfter(keys), key).navigate <==> EndsWithCode(keys + [key])
  {
    var all := keys + [key];
    assert all[..|all| - 1] == keys;
    assert WindowAfter(all) == PushKey(WindowAfter(keys), key);
    WindowIsLastKeys(all);
    LastTenMatch(all);
  }

  /** Upper-case letters count: the code ending in `B`, `A` opens the secret page. */
  lemma UpperCaseLettersMatch()
    ensures Matches(KONAMI_CODE[..8] + ["B", "A"])
  {
    var w := KONAMI_CODE[..8] + ["B", "A"];
    assert ToLower("B") == "b" && ToLower("A") == "a";
    assert ToLower("b") == "b" && ToLower("a") == "a";
    assert forall i :: 0 <= i < 8 ==> w[i] == KONAMI_CODE[i];
  }
}
