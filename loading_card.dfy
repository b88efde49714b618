/** The prediction card (src/Components/LoadingCard.tsx): its target label and
    avatar address. */
module LoadingCard {
  import opened Common
  import opened Text
  import opened Records
  import ImageHelper

  /** ASCII upper-casing of one character. */
  function Upper(c: char): (u: char)
    ensures 'a' <= c <= 'z' ==> u as int == c as int - 32
    ensures !('a' <= c <= 'z') ==> u == c
    ensures !('a' <= u <= 'z')  || u == c
  {
    if 'a' <= c <= 'z' then (c as int - 32) as char else c
  }

  /** Every '_' replaced by a space. */
  function Spaced(s: string): (r: string)
    ensures |r| == |s|
    ensures forall k :: 0 <= k < |s| ==> r[k] == if s[k] == '_' then ' ' else s[k]
  {
    if s == [] then [] else [if s[0] == '_' then ' ' else s[0]] + Spaced(s[1..])
  }

  /** `formatTargetName`: the first character upper-cased and every later '_'
      shown as a space; the length does not change. */
  function FormatTargetName(t: string): (r: string)
    ensures |r| == |t|
    ensures t != [] ==> r[0] == Upper(t[0])
    ensures forall k :: 1 <= k < |t| ==> r[k] == if t[k] == '_' then ' ' else t[k]
  {
    if t == [] then [] else [Upper(t[0])] + Spaced(t[1..])
  }

  /** Formatting a formatted name changes nothing more. */
  lemma FormatTwice(t: string)
    ensures FormatTargetName(FormatTargetName(t)) == FormatTargetName(t)
  {
    var once := FormatTargetName(t);
    if t != [] {
      assert forall k :: 1 <= k < |once| ==> once[k] != '_';
      assert Upper(Upper(t[0])) == Upper(t[0]);
    }
  }

  /** Only the first character is a candidate for upper-casing, and no '_' is
      left after it. */
  lemma NoUnderscoreAfterFirst(t: string)
    ensures forall k :: 1 <= k < |t| ==> FormatTargetName(t)[k] != '_'
    ensures t != [] && t[0] == '_' ==> FormatTargetName(t)[0] == '_'
  {
  }

  /** The avatar address: the photo's text up to its first '.', then ".png";
      a missing photo is interpolated as "undefined". */
  function AvatarUrl(photo: Option<string>): (r: string)
    ensures |ImageHelper.PhotoBase| <= |r| && r[..|ImageHelper.PhotoBase|] == ImageHelper.PhotoBase
    ensures r[|r| - 4..] == ".png"
    ensures photo.None? ==> r == ImageHelper.PhotoBase + ImageHelper.Undefined + ".png"
  {
    var shown := photo.GetOr(ImageHelper.Undefined);
    ImageHelper.PhotoBase + Split(shown, '.')[0] + ".png"
  }

  /** Of a photo named stem + "." + extension, the avatar keeps the stem. */
  lemma AvatarKeepsStem(stem: string, ext: string)
    requires '.' !in stem
    ensures AvatarUrl(Some(stem + "." + ext)) == ImageHelper.PhotoBase + stem + ".png"
  {
    var s := stem + "." + ext;
    assert s[|stem|] == '.';
    var i := IndexOf(s, '.');
    assert s[..|stem|] == stem;
    assert i == |stem|;
  }

  /** For the usual photo name the card's avatar and the squad image helper
      point at the same picture. */
  lemma AvatarMatchesPlayerImage(players: seq<PlayerElement>, i: nat, stem: string)
    requires i < |players| && players[i].photo == stem + ".jpg"
    requires forall j :: 0 <= j < i ==> players[j].id != players[i].id
    requires '.' !in stem && 'j' !in stem
    ensures AvatarUrl(Some(players[i].photo)) == ImageHelper.PlayerImageUrl(players, players[i].id)
  {
    var photo := players[i].photo;
    AvatarOfJpg(stem);
    ImageHelper.JpgBecomesPng(stem);
    ImageHelper.FirstMatchWins(players, i, players[i].id);
    assert ImageHelper.PlayerImageUrl(players, players[i].id) == ImageHelper.PhotoBase + (stem + ".png");
  }

  /** The avatar of a ".jpg" photo is the stem's ".png". */
  lemma AvatarOfJpg(stem: string)
    requires '.' !in stem
    ensures AvatarUrl(Some(stem + ".jpg")) == ImageHelper.PhotoBase + (stem + ".png")
  {
    assert stem + "." + "jpg" == stem + ".jpg";
    AvatarKeepsStem(stem, "jpg");
    assert ImageHelper.PhotoBase + stem + ".png" == ImageHelper.PhotoBase + (stem + ".png");
  }

  /** What the card shows. */
  datatype Shown = Shimmer | Details(avatar: string, targetLabel: string)

  /** The card renders nothing without a signed-in user, a shimmer while
      loading, and otherwise the avatar and the target label (none for an
      absent or empty target). */
  function Card(user: Option<FantasyUser>, loading: bool, target: Option<string>, photo: Option<string>): (r: Option<Shown>)
    ensures r.None? <==> user.None?
    ensures r.Some? && loading ==> r.value == Shimmer
    ensures r.Some? && !loading ==> r.value.Details? && r.value.avatar == AvatarUrl(photo)
    ensures r.Some? && !loading ==> |r.value.targetLabel| == |target.GetOr("")|
  {
    if user.None? then None
    else if loading then Some(Shimmer)
    else
      var t := target.GetOr("");
      var caption := if t == "" then "" else FormatTargetName(t);
      Some(Details(AvatarUrl(photo), caption))
  }
}
