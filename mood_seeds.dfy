/** The mood seed table of `get_mood_seeds`: six mood keys, each with an
    ordered list of genres and an ordered list of search keywords, looked up
    by the lower-cased mood with `neutral` as the default. */
module MoodSeeds {

  // ---------------------------------------------------------------------
  // Case handling (Python's str.lower and str.capitalize, on ASCII letters)
  // ---------------------------------------------------------------------

  predicate IsUpper(c: char) { 'A' <= c <= 'Z' }

  predicate IsLower(c: char) { 'a' <= c <= 'z' }

  /** No character of `s` is an upper-case letter. */
  predicate AllLower(s: string) {
    forall i :: 0 <= i < |s| ==> !IsUpper(s[i])
  }

  function LowerChar(c: char): (d: char)
    ensures !IsUpper(d)
    ensures IsUpper(c) <==> d != c
  {
    if IsUpper(c) then (c as int + 32) as char else c
  }

  function UpperChar(c: char): (d: char)
    ensures !IsLower(d)
    ensures IsLower(c) <==> d != c
  {
    if IsLower(c) then (c as int - 32) as char else c
  }

  /** `s.lower()`: every upper-case letter replaced by its lower-case form,
      every other character kept in place. */
  function Lower(s: string): (r: string)
    ensures |r| == |s|
    ensures AllLower(r)
    ensures forall i :: 0 <= i < |s| && !IsUpper(s[i]) ==> r[i] == s[i]
    ensures forall i :: 0 <= i < |s| && IsUpper(s[i]) ==> r[i] == LowerChar(s[i]) != s[i]
  {
    if s == [] then [] else [LowerChar(s[0])] + Lower(s[1..])
  }

  /** Lower-casing an already lower-case string changes nothing, so `Lower`
      is idempotent. */
  lemma LowerOfAllLower(s: string)
    requires AllLower(s)
    ensures Lower(s) == s
  {
  }

  /** `s.capitalize()`: the first character upper-cased, the rest lower-cased. */
  function Capitalize(s: string): (r: string)
    ensures |r| == |s|
    ensures |s| > 0 ==> !IsLower(r[0]) && AllLower(r[1..])
    ensures Lower(r) == Lower(s)
  {
    if s == [] then []
    else
      var r := [UpperChar(s[0])] + Lower(s[1..]);
      LowerOfAllLower(Lower(s[1..]));
      assert Lower(r) == [LowerChar(r[0])] + Lower(r[1..]);
      r
  }

  // ---------------------------------------------------------------------
  // Moods and their keys
  // ---------------------------------------------------------------------

  datatype Mood = Happy | Sad | Angry | Surprise | Fear | Neutral

  /** The dictionary key under which each mood is stored. */
  function Key(m: Mood): (k: string)
    ensures AllLower(k) && |k| > 0
  {
    match m
    case Happy => "happy"
    case Sad => "sad"
    case Angry => "angry"
    case Surprise => "surprise"
    case Fear => "fear"
    case Neutral => "neutral"
  }

  const MoodKeys: set<string> := {"happy", "sad", "angry", "surprise", "fear", "neutral"}

  /** Different moods have different keys, and the keys are exactly MoodKeys. */
  lemma KeysDistinct(m: Mood, n: Mood)
    ensures Key(m) == Key(n) <==> m == n
    ensures Key(m) in MoodKeys
  {
  }

  /** Every key of the table is the key of some mood, so together with
      `KeysDistinct` the keys are exactly `MoodKeys`. */
  lemma {:induction false} KeysCover(k: string)
    ensures k in MoodKeys <==> exists m :: Key(m) == k
  {
    if k in MoodKeys {
      LowerOfAllLower(k);
      assert Key(ParseMood(k)) == k;
    }
  }

  /** The `dict.get(mood.lower(), default)` resolution shared by the seed
      table and the fallback-playlist table: the mood whose key is the
      lower-cased input, or `Neutral` when no key matches. */
  function ParseMood(s: string): (m: Mood)
    ensures Lower(s) in MoodKeys ==> Key(m) == Lower(s)
    ensures Lower(s) !in MoodKeys ==> m == Neutral
  {
    var key := Lower(s);
    if key == "happy" then Happy
    else if key == "sad" then Sad
    else if key == "angry" then Angry
    else if key == "surprise" then Surprise
    else if key == "fear" then Fear
    else Neutral
  }

  /** Looking a mood up by its own key, in any letter case, finds that mood. */
  lemma {:induction false} ParseKey(m: Mood, s: string)
    requires Lower(s) == Key(m)
    ensures ParseMood(s) == m
  {
    KeysDistinct(m, ParseMood(s));
  }

  /** The resolution depends on nothing but the lower-cased input. */
  lemma {:induction false} ParseMoodIgnoresCase(s: string, t: string)
    requires Lower(s) == Lower(t)
    ensures ParseMood(s) == ParseMood(t)
    ensures ParseMood(Lower(s)) == ParseMood(s)
  {
    LowerOfAllLower(Lower(s));
  }

  // ---------------------------------------------------------------------
  // The seed table
  // ---------------------------------------------------------------------

  datatype Seeds = Seeds(genres: seq<string>, keywords: seq<string>)

  /** The fixed entry for each mood, in the listed order. */
  function SeedsOf(m: Mood): (r: Seeds)
    ensures 5 <= |r.genres| <= 7 && 5 <= |r.keywords| <= 9
  {
    match m
    case Happy => Seeds(
      ["pop", "dance", "feel-good", "funk", "indie pop"],
      ["upbeat", "joy", "cheerful", "energizing", "positive", "carefree", "celebratory", "optimistic"])
    case Sad => Seeds(
      ["sad", "acoustic", "melancholic", "blues", "slow ballads"],
      ["heartbreak", "grief", "loneliness", "melancholy", "reflection", "nostalgia", "emotional", "soulful"])
    case Angry => Seeds(
      ["metal", "rock", "punk", "hardcore", "industrial", "rap", "grunge"],
      ["rage", "powerful", "intense", "rebellious", "aggressive"])
    case Surprise => Seeds(
      ["pop", "electronic", "dance", "experimental", "future bass", "trap"],
      ["exciting", "unexpected", "energetic", "shocking", "vibrant", "playful", "adventurous", "thrilling"])
    case Fear => Seeds(
      ["dark-ambient", "atmospheric", "industrial", "synthwave", "gothic", "psychedelic", "horror soundtrack"],
      ["atmospheric", "mysterious", "intense", "uneasy", "unsettling", "tense", "suspense", "horror", "dark"])
    case Neutral => Seeds(
      ["indie", "alternative", "chill", "lo-fi", "soft rock", "acoustic"],
      ["chill", "relaxing", "balanced", "calm", "grounded", "focused", "instrumental", "piano"])
  }

  /** `get_mood_seeds(mood)`: the entry of the mood whose key equals
      `mood.lower()`, and the `neutral` entry for every other input,
      the empty string included. */
  function GetMoodSeeds(mood: string): (r: Seeds)
    ensures forall m :: Key(m) == Lower(mood) ==> r == SeedsOf(m)
    ensures Lower(mood) !in MoodKeys ==> r == SeedsOf(Neutral)
    ensures |r.genres| > 0 && |r.keywords| > 0
  {
    var m := ParseMood(mood);
    assert forall n :: Key(n) == Lower(mood) ==> n == m by {
      forall n | Key(n) == Lower(mood) ensures n == m {
        KeysDistinct(n, m);
      }
    }
    SeedsOf(m)
  }
}
