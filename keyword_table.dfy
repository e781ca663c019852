/**
 The keyword reply lookup shared by the server fallback and the client widget:
 normalise the message (lowercase, then trim), walk an ordered key-to-reply
 table and answer with the reply of the first key the message contains,
 or with a fixed default when no key occurs.

 A table is the object literal `{ key: reply, ... }` taken apart into its
 keys and its replies, both in declaration order: the order in which
 `Object.entries` yields string keys that are not array indices.
 */
module KeywordTable {
  import opened Strings

  /**
   `message.toLowerCase().trim()`: a run of the lowercased message without
   capitals or surrounding whitespace.
   */
  function Normalize(message: string): (r: string)
    ensures NoAsciiUpper(r)
    ensures r != [] ==> !IsWhitespace(r[0]) && !IsWhitespace(r[|r| - 1])
  {
    Trim(ToLowerCase(message))
  }

  /** The normal form is empty exactly when the message is blank. */
  lemma NormalFormEmptyIffBlank(message: string)
    ensures Normalize(message) == [] <==> IsBlank(message)
  {
    LowerCaseKeepsBlank(message);
  }

  /**
   A key matches when the scan does not skip it (the client skips its `default`
   entry) and it occurs in the normalised message.
   */
  ghost predicate Matches(key: string, skip: set<string>, message: string) {
    key !in skip && Contains(message, key)
  }

  /** Key `k` matches and no earlier key does. */
  ghost predicate IsFirstMatch(keys: seq<string>, skip: set<string>, message: string, k: int) {
    0 <= k < |keys| && Matches(keys[k], skip, message)
    && forall j :: 0 <= j < k ==> !Matches(keys[j], skip, message)
  }

  ghost predicate NoMatch(keys: seq<string>, skip: set<string>, message: string) {
    forall k :: 0 <= k < |keys| ==> !Matches(keys[k], skip, message)
  }

  /** Every reply is non-empty. */
  ghost predicate RepliesNonEmpty(replies: seq<string>) {
    forall k :: 0 <= k < |replies| ==> replies[k] != []
  }

  /** Every key is non-empty and starts and ends with a non-whitespace character. */
  ghost predicate KeysAreTrimmed(keys: seq<string>) {
    forall k :: 0 <= k < |keys| ==>
      keys[k] != [] && !IsWhitespace(keys[k][0]) && !IsWhitespace(keys[k][|keys[k]| - 1])
  }

  /**
   The `for ... of Object.entries(...)` scan from entry `from` on: the index of
   the first matching key, or `|keys|` when the scan runs off the end.
   */
  function FirstMatchFrom(keys: seq<string>, skip: set<string>, message: string, from: nat): (k: nat)
    requires from <= |keys|
    ensures from <= k <= |keys|
    ensures k < |keys| ==> Matches(keys[k], skip, message)
    ensures forall j :: from <= j < k ==> !Matches(keys[j], skip, message)
    decreases |keys| - from
  {
    if from == |keys| then
      from
    else if keys[from] !in skip && Includes(message, keys[from]) then
      from
    else
      FirstMatchFrom(keys, skip, message, from + 1)
  }

  /**
   The reply of the first matching key, or `default` when none matches; the
   result is always the default or one of the replies.
   */
  function Lookup(keys: seq<string>, replies: seq<string>, skip: set<string>, message: string, default: string): (r: string)
    requires |keys| == |replies|
    ensures forall k :: IsFirstMatch(keys, skip, message, k) ==> r == replies[k]
    ensures NoMatch(keys, skip, message) ==> r == default
    ensures r == default || r in replies
  {
    var k := FirstMatchFrom(keys, skip, message, 0);
    if k < |keys| then replies[k] else default
  }

  /** Either some key is the first match, or none matches: the two cases of `Lookup` cover every message. */
  lemma {:induction false} FirstMatchOrNone(keys: seq<string>, skip: set<string>, message: string)
    ensures NoMatch(keys, skip, message) || exists k :: IsFirstMatch(keys, skip, message, k)
  {
    var k := FirstMatchFrom(keys, skip, message, 0);
    if k < |keys| {
      assert IsFirstMatch(keys, skip, message, k);
    }
  }

  /** When two keys both match, the earlier-declared one decides the reply. */
  lemma FirstDeclaredWins(keys: seq<string>, skip: set<string>, message: string, i: nat, j: nat)
    requires i < j < |keys|
    requires Matches(keys[i], skip, message) && Matches(keys[j], skip, message)
    ensures !IsFirstMatch(keys, skip, message, j)
    ensures exists k :: k <= i && IsFirstMatch(keys, skip, message, k)
  {
    var k := FirstMatchFrom(keys, skip, message, 0);
    assert IsFirstMatch(keys, skip, message, k);
  }

  /**
   A blank message normalises to the empty string, in which no key occurs:
   whitespace has no capitals, so lowercasing keeps it blank and trimming
   removes all of it.
   */
  lemma BlankMessageMatchesNothing(keys: seq<string>, skip: set<string>, message: string)
    requires IsBlank(message) && KeysAreTrimmed(keys)
    ensures Normalize(message) == []
    ensures NoMatch(keys, skip, Normalize(message))
  {
    var lower := ToLowerCase(message);
    forall i | 0 <= i < |lower|
      ensures IsWhitespace(lower[i])
    {
      assert IsWhitespace(message[i]) && !IsAsciiUpper(message[i]);
    }
    forall k | 0 <= k < |keys|
      ensures !Contains(Normalize(message), keys[k])
    {
      assert keys[k] != [];
    }
  }

  /**
   For keys without surrounding whitespace, trimming the message never
   changes the reply: only the lowercasing matters.
   */
  lemma {:induction false} TrimDoesNotChangeReply(keys: seq<string>, replies: seq<string>, skip: set<string>, message: string, default: string)
    requires |keys| == |replies| && KeysAreTrimmed(keys)
    ensures Lookup(keys, replies, skip, Trim(message), default) == Lookup(keys, replies, skip, message, default)
  {
    forall k | 0 <= k < |keys|
      ensures Matches(keys[k], skip, Trim(message)) <==> Matches(keys[k], skip, message)
    {
      TrimKeepsKey(message, keys[k]);
    }
    FirstMatchOrNone(keys, skip, message);
    if NoMatch(keys, skip, message) {
      assert NoMatch(keys, skip, Trim(message));
    } else {
      var k :| IsFirstMatch(keys, skip, message, k);
      assert IsFirstMatch(keys, skip, Trim(message), k);
    }
  }
}
