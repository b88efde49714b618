/** Player photo URLs (src/Helpers/ImageHelper.ts). */
module ImageHelper {
  import opened Common
  import opened Seqs
  import opened Records

  /** The Premier League's 250x250 player photo prefix. */
  const PhotoBase: string := "https://resources.premierleague.com/premierleague/photos/players/250x250/p"

  /** JavaScript interpolates a missing value as this text. */
  const Undefined: string := "undefined"

  /** `pat` occurs in `s` at position `i`. */
  predicate OccursAt(s: string, pat: string, i: nat) {
    i + |pat| <= |s| && s[i..i + |pat|] == pat
  }

  /** The first position at or after `k` where `pat` occurs. */
  function IndexFrom(s: string, pat: string, k: nat): (r: Option<nat>)
    requires k <= |s|
    ensures r.Some? ==> k <= r.value && OccursAt(s, pat, r.value)
    ensures r.Some? ==> forall j: nat :: k <= j < r.value ==> !OccursAt(s, pat, j)
    ensures r.None? ==> forall j: nat :: k <= j ==> !OccursAt(s, pat, j)
    decreases |s| - k
  {
    if k + |pat| > |s| then None
    else if s[k..k + |pat|] == pat then Some(k)
    else IndexFrom(s, pat, k + 1)
  }

  /** JavaScript's `s.replace(pat, rep)` with a text pattern: only the first
      occurrence is replaced. */
  function ReplaceFirst(s: string, pat: string, rep: string): (r: string)
    ensures (forall j: nat :: !OccursAt(s, pat, j)) ==> r == s
    ensures forall i: nat :: OccursAt(s, pat, i) && (forall j: nat :: j < i ==> !OccursAt(s, pat, j)) ==>
      r == s[..i] + rep + s[i + |pat|..]
    ensures |rep| == |pat| ==> |r| == |s|
  {
    match IndexFrom(s, pat, 0)
    case None => s
    case Some(i) => s[..i] + rep + s[i + |pat|..]
  }

  function WithId(id: int): PlayerElement -> bool {
    (p: PlayerElement) => p.id == id
  }

  /** `getPlayerImageUrl`: the photo of the first squad player with this id,
      its first "jpg" turned into "png", after the fixed prefix. */
  function PlayerImageUrl(players: seq<PlayerElement>, elementId: int): (r: string)
    ensures |PhotoBase| <= |r| && r[..|PhotoBase|] == PhotoBase
    ensures (forall i :: 0 <= i < |players| ==> players[i].id != elementId) ==> r == PhotoBase + Undefined
  {
    match Find(players, WithId(elementId))
    case None => PhotoBase + Undefined
    case Some(p) => PhotoBase + ReplaceFirst(p.photo, "jpg", "png")
  }

  /** The usual photo name, a stem free of 'j' followed by ".jpg", becomes
      the stem followed by ".png". */
  lemma JpgBecomesPng(stem: string)
    requires 'j' !in stem
    ensures ReplaceFirst(stem + ".jpg", "jpg", "png") == stem + ".png"
  {
    var s := stem + ".jpg";
    var n := |stem| + 1;
    assert s[n..n + 3] == "jpg";
    forall j: nat | j < n ensures !OccursAt(s, "jpg", j) {
      if j < |stem| {
        assert s[j] == stem[j];
      } else {
        assert s[j] == '.';
      }
    }
    assert s[..n] + "png" + s[n + 3..] == stem + ".png";
  }

  /** The first matching player decides the URL, whatever players follow. */
  lemma FirstMatchWins(players: seq<PlayerElement>, i: nat, elementId: int)
    requires i < |players| && players[i].id == elementId
    requires forall j :: 0 <= j < i ==> players[j].id != elementId
    ensures PlayerImageUrl(players, elementId) == PhotoBase + ReplaceFirst(players[i].photo, "jpg", "png")
  {
    FirstIndexAt(players, WithId(elementId), i);
  }
}
