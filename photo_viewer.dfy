/** The pure helpers of the photo viewer: the damage items highlighted for the selected
    category, the tab labels, and the thumbnail strip under the main photo. `toUpperCase` is
    modelled on ASCII letters only. */
module PhotoViewer {
  import opened Wrappers
  import opened Seqs
  import opened Schema
  import opened SampleData
  import opened Dashboard

  /** The number of occurrences of `c` in `s`. */
  function Count(s: string, c: char): nat {
    if s == [] then 0 else (if s[0] == c then 1 else 0) + Count(s[1..], c)
  }

  /** `s.split(sep)` for a one-character separator: the runs between separators, one more piece
      than there are separators; the first piece is the part of `s` before the first separator. */
  function Split(s: string, sep: char): (r: seq<string>)
    ensures |r| == Count(s, sep) + 1
    ensures forall k :: 0 <= k < |r| ==> sep !in r[k]
    ensures r[0] <= s && (|r[0]| == |s| || s[|r[0]|] == sep)
  {
    if s == [] then [""]
    else
      var rest := Split(s[1..], sep);
      if s[0] == sep then [""] + rest
      else
        assert forall k :: 1 <= k < |rest| ==> ([[s[0]] + rest[0]] + rest[1..])[k] == rest[k];
        [[s[0]] + rest[0]] + rest[1..]
  }

  /** `pieces.join(sep)`. */
  function Join(pieces: seq<string>, sep: string): string {
    if pieces == [] then ""
    else if |pieces| == 1 then pieces[0]
    else pieces[0] + sep + Join(pieces[1..], sep)
  }

  lemma JoinOntoFirst(x: string, pieces: seq<string>, sep: string)
    requires |pieces| >= 1
    ensures Join([x + pieces[0]] + pieces[1..], sep) == x + Join(pieces, sep)
  {
    var ps := [x + pieces[0]] + pieces[1..];
    assert ps[1..] == pieces[1..];
  }

  /** Joining the pieces with the separator gives back the string that was split. */
  lemma {:induction false} JoinSplit(s: string, sep: char)
    ensures Join(Split(s, sep), [sep]) == s
    decreases |s|
  {
    if s != [] {
      var rest := Split(s[1..], sep);
      JoinSplit(s[1..], sep);
      if s[0] == sep {
        assert ([""] + rest)[1..] == rest;
      } else {
        JoinOntoFirst([s[0]], rest, [sep]);
      }
    }
  }

  lemma {:induction false} SplitPiece(p: string, sep: char)
    requires sep !in p
    ensures Split(p, sep) == [p]
    decreases |p|
  {
    if p != [] {
      assert p == [p[0]] + p[1..];
      SplitPiece(p[1..], sep);
    }
  }

  lemma {:induction false} SplitAfterPiece(p: string, sep: char, t: string)
    requires sep !in p
    ensures Split(p + [sep] + t, sep) == [p] + Split(t, sep)
    decreases |p|
  {
    var s := p + [sep] + t;
    if p == [] {
      assert s[1..] == t;
    } else {
      assert p == [p[0]] + p[1..];
      assert s[1..] == p[1..] + [sep] + t;
      SplitAfterPiece(p[1..], sep, t);
    }
  }

  /** Splitting what was joined gives back the pieces, when no piece holds the separator. */
  lemma {:induction false} SplitJoin(pieces: seq<string>, sep: char)
    requires |pieces| >= 1 && forall k :: 0 <= k < |pieces| ==> sep !in pieces[k]
    ensures Split(Join(pieces, [sep]), sep) == pieces
    decreases |pieces|
  {
    if |pieces| == 1 {
      SplitPiece(pieces[0], sep);
    } else {
      SplitJoin(pieces[1..], sep);
      SplitAfterPiece(pieces[0], sep, Join(pieces[1..], [sep]));
      assert pieces == [pieces[0]] + pieces[1..];
    }
  }

  /** `selectedCategory.split('_')[0]`: the category up to its first underscore. */
  function CategoryPrefix(category: string): (r: string)
    ensures '_' !in r && r <= category
    ensures |r| == |category| || category[|r|] == '_'
  {
    Split(category, '_')[0]
  }

  /** `sub` occurs in `s` starting at position `i`. */
  ghost predicate OccursAt(s: string, sub: string, i: nat) {
    i + |sub| <= |s| && s[i..i + |sub|] == sub
  }

  /** `s.includes(sub)`. */
  function Includes(s: string, sub: string): (r: bool)
    ensures sub <= s ==> r
    ensures r ==> |sub| <= |s|
    decreases |s|
  {
    if sub <= s then true
    else if s == [] then false
    else Includes(s[1..], sub)
  }

  /** `includes` holds exactly when `sub` occurs somewhere in `s`. */
  lemma {:induction false} IncludesIsSubstring(s: string, sub: string)
    ensures Includes(s, sub) <==> exists i: nat :: OccursAt(s, sub, i)
    decreases |s|
  {
    if sub <= s {
      assert OccursAt(s, sub, 0);
    } else if s == [] {
      assert forall i: nat :: !OccursAt(s, sub, i);
    } else {
      IncludesIsSubstring(s[1..], sub);
      if Includes(s[1..], sub) {
        var i: nat :| OccursAt(s[1..], sub, i);
        assert s[i + 1..i + 1 + |sub|] == s[1..][i..i + |sub|];
        assert OccursAt(s, sub, i + 1);
      } else {
        forall i: nat | OccursAt(s, sub, i) ensures false {
          if i > 0 {
            OccursAtTail(s, sub, i);
          }
        }
      }
    }
  }

  /** An occurrence past the first character is an occurrence in the tail. */
  lemma OccursAtTail(s: string, sub: string, i: nat)
    requires s != [] && i > 0 && OccursAt(s, sub, i)
    ensures OccursAt(s[1..], sub, i - 1)
  {
    assert s[1..][i - 1..i - 1 + |sub|] == s[i..i + |sub|];
  }

  /** The `item.location.includes(prefix)` condition. */
  function LocatedIn(prefix: string): DamageItem -> bool {
    (d: DamageItem) => Includes(d.location, prefix)
  }

  /** The damage items highlighted over the main photo: those whose location mentions the part
      of the selected category before its first underscore, in the order given. */
  function RelevantDamageItems(items: seq<DamageItem>, selected: string): (r: seq<DamageItem>)
    ensures forall d :: d in r <==> d in items && Includes(d.location, CategoryPrefix(selected))
  {
    Filter(items, LocatedIn(CategoryPrefix(selected)))
  }

  /** Selecting the relevant items keeps their relative order. */
  lemma RelevantDamageItemsKeepOrder(a: seq<DamageItem>, b: seq<DamageItem>, selected: string)
    ensures RelevantDamageItems(a + b, selected) == RelevantDamageItems(a, selected) + RelevantDamageItems(b, selected)
  {
    FilterConcat(a, b, LocatedIn(CategoryPrefix(selected)));
  }

  /** A highlighted item's location holds the category's prefix as a substring. */
  lemma RelevantItemMentionsPrefix(items: seq<DamageItem>, selected: string, d: DamageItem)
    requires d in RelevantDamageItems(items, selected)
    ensures exists i: nat :: OccursAt(d.location, CategoryPrefix(selected), i)
  {
    IncludesIsSubstring(d.location, CategoryPrefix(selected));
  }

  /** `toUpperCase` on one character, ASCII letters only. */
  function ToUpper(c: char): (r: char)
    ensures r == c || ('a' <= c <= 'z' && 'A' <= r <= 'Z')
  {
    if 'a' <= c <= 'z' then (c as int - 32) as char else c
  }

  /** `word.charAt(0).toUpperCase() + word.slice(1)`. */
  function Capitalize(w: string): (r: string)
    ensures |r| == |w|
  {
    if w == [] then "" else [ToUpper(w[0])] + w[1..]
  }

  function CapitalizeAll(words: seq<string>): (r: seq<string>)
    ensures |r| == |words|
  {
    seq(|words|, k requires 0 <= k < |words| => Capitalize(words[k]))
  }

  /** `category.split('_').map(capitalize).join(' ')`: the tab caption of a category. */
  function FormatCategoryName(category: string): (r: string)
    ensures |r| == |category|
  {
    JoinSplit(category, '_');
    CaptionOfJoin(Split(category, '_'));
    Join(CapitalizeAll(Split(category, '_')), " ")
  }

  /** The caption character by character: an underscore becomes a space, a letter at the start
      or after an underscore is upper-cased, and every other character is kept. */
  function CaptionChar(s: string, i: nat): char
    requires i < |s|
  {
    if s[i] == '_' then ' ' else if i == 0 || s[i - 1] == '_' then ToUpper(s[i]) else s[i]
  }

  function Caption(s: string): (r: string)
    ensures |r| == |s|
  {
    seq(|s|, i requires 0 <= i < |s| => CaptionChar(s, i))
  }

  lemma CaptionPiece(p: string)
    requires '_' !in p
    ensures Caption(p) == Capitalize(p)
  {
    if p != [] {
      forall i | 1 <= i < |p| ensures Caption(p)[i] == Capitalize(p)[i] {
        assert p[i - 1] in p;
      }
    }
  }

  lemma CaptionAfterPiece(p: string, t: string)
    requires '_' !in p
    ensures Caption(p + "_" + t) == Capitalize(p) + " " + Caption(t)
  {
    var s := p + "_" + t;
    var rhs := Capitalize(p) + " " + Caption(t);
    CaptionPiece(p);
    forall i | 0 <= i < |s| ensures Caption(s)[i] == rhs[i] {
      if i < |p| {
        assert s[i] == p[i] && Caption(p)[i] == CaptionChar(p, i);
        if i > 0 {
          assert s[i - 1] == p[i - 1];
        }
      } else if i > |p| {
        var k := i - |p| - 1;
        assert s[i] == t[k] && rhs[i] == Caption(t)[k];
        if k > 0 {
          assert s[i - 1] == t[k - 1];
        }
      }
    }
  }

  lemma {:induction false} CaptionOfJoin(pieces: seq<string>)
    requires |pieces| >= 1 && forall k :: 0 <= k < |pieces| ==> '_' !in pieces[k]
    ensures Caption(Join(pieces, "_")) == Join(CapitalizeAll(pieces), " ")
    decreases |pieces|
  {
    if |pieces| == 1 {
      CaptionPiece(pieces[0]);
    } else {
      CaptionOfJoin(pieces[1..]);
      CaptionAfterPiece(pieces[0], Join(pieces[1..], "_"));
      assert CapitalizeAll(pieces)[1..] == CapitalizeAll(pieces[1..]);
    }
  }

  /** The caption agrees, character by character, with the reference `CaptionChar`. */
  lemma FormatCategoryNameByChars(category: string)
    ensures FormatCategoryName(category) == Caption(category)
    ensures forall i :: 0 <= i < |category| ==> FormatCategoryName(category)[i] == CaptionChar(category, i)
  {
    JoinSplit(category, '_');
    CaptionOfJoin(Split(category, '_'));
  }

  /** A caption holds no underscore. */
  lemma FormatCategoryNameHasNoUnderscore(category: string)
    ensures '_' !in FormatCategoryName(category)
  {
    FormatCategoryNameByChars(category);
    forall i | 0 <= i < |category| ensures CaptionChar(category, i) != '_' {
    }
  }

  /** For a category without spaces, the caption splits on spaces into the capitalized pieces,
      one per underscore-separated piece of the category. */
  lemma FormatCategoryNamePieces(category: string)
    requires ' ' !in category
    ensures Split(FormatCategoryName(category), ' ') == CapitalizeAll(Split(category, '_'))
    ensures |Split(FormatCategoryName(category), ' ')| == Count(category, '_') + 1
  {
    var pieces := Split(category, '_');
    SplitKeepsOut(category, '_', ' ');
    forall k | 0 <= k < |pieces| ensures ' ' !in CapitalizeAll(pieces)[k] {
      CapitalizeKeepsOutSpace(pieces[k]);
    }
    SplitJoin(CapitalizeAll(pieces), ' ');
  }

  /** A character absent from `s` is absent from all its pieces. */
  lemma {:induction false} SplitKeepsOut(s: string, sep: char, c: char)
    requires c !in s
    ensures forall k :: 0 <= k < |Split(s, sep)| ==> c !in Split(s, sep)[k]
    decreases |s|
  {
    if s != [] {
      assert s == [s[0]] + s[1..];
      SplitKeepsOut(s[1..], sep, c);
      var rest := Split(s[1..], sep);
      if s[0] != sep {
        assert forall k :: 1 <= k < |rest| ==> Split(s, sep)[k] == rest[k];
      } else {
        assert forall k :: 1 <= k < |Split(s, sep)| ==> Split(s, sep)[k] == rest[k - 1];
      }
    }
  }

  lemma CapitalizeKeepsOutSpace(w: string)
    requires ' ' !in w
    ensures ' ' !in Capitalize(w)
  {
    if w != [] {
      assert w == [w[0]] + w[1..];
      assert Capitalize(w) == [ToUpper(w[0])] + w[1..];
    }
  }

  /** `photos.filter(photo => photo.category === category).length`: a tab's photo count. */
  function CategoryPhotoCount(photos: seq<Photo>, category: string): (r: nat)
    ensures r <= |photos|
    ensures r == 0 <==> forall i :: 0 <= i < |photos| ==> photos[i].category != category
  {
    var kept := Filter(photos, InCategory(category));
    assert kept == [] <==> forall i :: 0 <= i < |photos| ==> photos[i].category != category by {
      if kept != [] {
        assert kept[0] in photos && InCategory(category)(kept[0]);
        var i :| 0 <= i < |photos| && photos[i] == kept[0];
        assert photos[i].category == category;
      }
      forall i | 0 <= i < |photos| && photos[i].category == category ensures photos[i] in kept {
        assert InCategory(category)(photos[i]);
      }
    }
    |kept|
  }

  /** The count is the number of photos whose category is `category`. */
  lemma {:induction false} CategoryPhotoCountIsMultiplicity(photos: seq<Photo>, category: string)
    ensures CategoryPhotoCount(photos, category) == multiset(Categories(photos))[category]
    decreases |photos|
  {
    if photos != [] {
      CategoryPhotoCountIsMultiplicity(photos[1..], category);
      assert Categories(photos) == [photos[0].category] + Categories(photos[1..]);
    }
  }

  /** `photo.thumbnailUrl || photo.url`: the picture a thumbnail shows. */
  function ThumbnailSource(p: Photo): (r: string)
    ensures p.thumbnailUrl.Some? && p.thumbnailUrl.value != "" ==> r == p.thumbnailUrl.value
    ensures p.thumbnailUrl.None? || p.thumbnailUrl.value == "" ==> r == p.url
  {
    OrDefault(p.thumbnailUrl, p.url)
  }

  const ThumbnailLimit := 3

  /** `photos.slice(0, 3)`: the thumbnails shown. */
  function ThumbnailStrip(photos: seq<Photo>): (r: seq<Photo>)
    ensures |r| <= ThumbnailLimit && r <= photos
    ensures |photos| >= ThumbnailLimit ==> |r| == ThumbnailLimit
    ensures |photos| <= ThumbnailLimit ==> r == photos
  {
    if |photos| <= ThumbnailLimit then photos else photos[..ThumbnailLimit]
  }

  /** The "+k more" tile: present exactly when there are more than three photos. */
  function MoreCount(photos: seq<Photo>): (r: Option<nat>)
    ensures r.Some? <==> |photos| > ThumbnailLimit
  {
    if |photos| > ThumbnailLimit then Some(|photos| - ThumbnailLimit) else None
  }

  /** Every photo is either shown as a thumbnail or counted in the "+k more" tile, and the
      tile counts only the photos not shown in the strip. */
  lemma ThumbnailsAccountForEveryPhoto(photos: seq<Photo>)
    ensures |ThumbnailStrip(photos)| + MoreCount(photos).GetOr(0) == |photos|
    ensures MoreCount(photos).Some? ==> MoreCount(photos).value > 0
    ensures photos == ThumbnailStrip(photos) + photos[|ThumbnailStrip(photos)|..]
  {
  }

  /** A tab's count as the viewer computes it: the page passes the viewer only the photos of
      the selected category, and the count filters those again. */
  function TabCountAsWritten(photos: seq<Photo>, selected: string, category: string): nat {
    CategoryPhotoCount(PhotosForCategory(photos, selected), category)
  }

  /** As written, every tab other than the selected one shows a count of 0. */
  lemma TabCountAsWrittenZero(photos: seq<Photo>, selected: string, category: string)
    requires category != selected
    ensures TabCountAsWritten(photos, selected, category) == 0
  {
    FilterNone(PhotosForCategory(photos, selected), InCategory(category));
  }

  /** On the seeded photos with the front bumper selected, the side panel tab shows 0 although
      one seeded photo is of the side panel. */
  lemma SeedSidePanelTabAsWritten(claimId: string, ids: seq<string>, now: int)
    requires |ids| == 3
    ensures TabCountAsWritten(SamplePhotos(claimId, ids, now), "front_bumper", "side_panel") == 0
    ensures CategoryPhotoCount(SamplePhotos(claimId, ids, now), "side_panel") == 1
  {
    var photos := SamplePhotos(claimId, ids, now);
    TabCountAsWrittenZero(photos, "front_bumper", "side_panel");
    CategoryPhotoCountIsMultiplicity(photos, "side_panel");
    assert Categories(photos) == ["front_bumper", "front_bumper", "side_panel"];
  }

  /** Counted over all the photos, every tab the page shows has at least one photo. */
  lemma TabCountPositive(photos: seq<Photo>, category: string)
    requires category in PhotoCategories(photos)
    ensures CategoryPhotoCount(photos, category) >= 1
  {
    CategoryPhotoCountIsMultiplicity(photos, category);
    var i :| 0 <= i < |photos| && photos[i].category == category;
    assert Categories(photos)[i] == category;
  }

  /** The caption and count of each category tab. */
  function TabLabels(photos: seq<Photo>, categories: seq<string>): (r: seq<(string, nat)>)
    ensures |r| == |categories|
    ensures forall k :: 0 <= k < |r| ==>
      r[k] == (FormatCategoryName(categories[k]), multiset(Categories(photos))[categories[k]])
  {
    var r := seq(|categories|, k requires 0 <= k < |categories| =>
      (FormatCategoryName(categories[k]), CategoryPhotoCount(photos, categories[k])));
    assert forall k :: 0 <= k < |r| ==> r[k].1 == multiset(Categories(photos))[categories[k]] by {
      forall k | 0 <= k < |r| ensures r[k].1 == multiset(Categories(photos))[categories[k]] {
        CategoryPhotoCountIsMultiplicity(photos, categories[k]);
      }
    }
    r
  }
}
