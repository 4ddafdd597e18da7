/** The file filter both upload handlers give multer (controllers/supplierController.js
    for product photos, controllers/mainController.js for profile photos). */
module Upload {
  import Text

  /** Node's `path.extname` for a file name without '/': from the last '.' to the end,
      or "" when there is no '.', the only '.' leads the name, or the name is "..". */
  function ExtName(name: string): (r: string)
    ensures r == "" || (r[0] == '.' && forall j :: 0 < j < |r| ==> r[j] != '.')
    ensures r != "" ==> |r| < |name| && name[|name| - |r|..] == r
    ensures r != "" <==> Text.LastDot(name) > 0 && name != ".."
  {
    var d := Text.LastDot(name);
    if d <= 0 || name == ".." then "" else name[d..]
  }

  /** The regular expression /jpeg|jpg|png/, unanchored: it matches exactly when some
      position starts "jp", then "g" or "eg", or starts "png"; no string shorter than
      three characters matches. */
  predicate ImageType(s: string)
    ensures ImageType(s) <==> exists i :: ImageAt(s, i)
    ensures ImageType(s) ==> |s| >= 3
  {
    ImageTypeAt(s);
    Text.Contains(s, "jpeg") || Text.Contains(s, "jpg") || Text.Contains(s, "png")
  }

  /** The alternation read character by character: jp(e)g or png starting at `i`. */
  predicate ImageAt(s: string, i: int)
  {
    && 0 <= i && i + 3 <= |s|
    && (|| (s[i] == 'j' && s[i + 1] == 'p' && (s[i + 2] == 'g' || (i + 4 <= |s| && s[i + 2] == 'e' && s[i + 3] == 'g')))
        || (s[i] == 'p' && s[i + 1] == 'n' && s[i + 2] == 'g'))
  }

  /** One of the three alternatives occurs at `i` exactly when `ImageAt` holds there. */
  lemma ImageAtIndex(s: string, i: int)
    ensures (|| Text.OccursAt(s, "jpeg", i) || Text.OccursAt(s, "jpg", i) || Text.OccursAt(s, "png", i)) <==> ImageAt(s, i)
  {
    if ImageAt(s, i) {
      if s[i] == 'p' {
        assert s[i..i + 3] == "png";
      } else if s[i + 2] == 'g' {
        assert s[i..i + 3] == "jpg";
      } else {
        assert s[i..i + 4] == "jpeg";
      }
    }
    if Text.OccursAt(s, "jpeg", i) {
      assert s[i..i + 4][3] == s[i + 3];
    }
  }

  /** The regular expression matches somewhere exactly when `ImageAt` holds at some
      position. */
  lemma ImageTypeAt(s: string)
    ensures (|| Text.Contains(s, "jpeg") || Text.Contains(s, "jpg") || Text.Contains(s, "png")) <==> exists i :: ImageAt(s, i)
  {
    forall i ensures (|| Text.OccursAt(s, "jpeg", i) || Text.OccursAt(s, "jpg", i) || Text.OccursAt(s, "png", i)) <==> ImageAt(s, i) {
      ImageAtIndex(s, i);
    }
  }

  /** Being unanchored, the test accepts any string that contains an accepted one. */
  lemma ImageTypeUnanchored(before: string, s: string, after: string)
    requires ImageType(s)
    ensures ImageType(before + s + after)
  {
    if Text.Contains(s, "jpeg") {
      Text.ContainsWithin(before, s, after, "jpeg");
    } else if Text.Contains(s, "jpg") {
      Text.ContainsWithin(before, s, after, "jpg");
    } else {
      Text.ContainsWithin(before, s, after, "png");
    }
  }

  /** checkFileType: both the lower-cased extension of the original name and the raw
      mimetype must match, so a name without an extension is always refused. */
  predicate CheckFileType(originalName: string, mimetype: string)
    ensures CheckFileType(originalName, mimetype) ==> ExtName(originalName) != "" && ImageType(mimetype)
  {
    ImageType(Text.Lower(ExtName(originalName))) && ImageType(mimetype)
  }

  /** Every name ending in ".jpeg", ".jpg" or ".png" after a non-empty stem is accepted
      with an image mimetype. */
  lemma AcceptsImageName(stem: string, ext: string, mimetype: string)
    requires |stem| > 0 && (ext == ".jpeg" || ext == ".jpg" || ext == ".png")
    requires ImageType(mimetype)
    ensures CheckFileType(stem + ext, mimetype)
  {
    ExtNameAfterStem(stem, ext);
    ImageExtension(ext);
  }

  /** The three lower-case extensions pass the test after lower-casing. */
  lemma ImageExtension(ext: string)
    requires ext == ".jpeg" || ext == ".jpg" || ext == ".png"
    ensures ImageType(Text.Lower(ext))
  {
    var lower := Text.Lower(ext);
    assert lower == ext;
    if ext == ".jpeg" {
      assert Text.OccursAt(lower, "jpeg", 1);
    } else if ext == ".jpg" {
      assert Text.OccursAt(lower, "jpg", 1);
    } else {
      assert Text.OccursAt(lower, "png", 1);
    }
  }

  /** A suffix that starts with its only '.' is the extension of any non-empty stem
      followed by it. */
  lemma ExtNameAfterStem(stem: string, ext: string)
    requires |stem| > 0 && |ext| > 1 && ext[0] == '.'
    requires forall j :: 0 < j < |ext| ==> ext[j] != '.'
    ensures ExtName(stem + ext) == ext
  {
    var name := stem + ext;
    assert name[|stem|] == '.';
    forall j | |stem| < j < |name| ensures name[j] != '.' {
      assert name[j] == ext[j - |stem|];
    }
    assert Text.LastDot(name) == |stem|;
    assert |name| > 2;
    assert name[|stem|..] == ext;
  }

  /** An upper-case extension is accepted, since only the extension is lower-cased. */
  lemma AcceptsUpperCasePng()
    ensures CheckFileType("Oak.PNG", "image/png")
  {
    var name := "Oak.PNG";
    assert name[3] == '.' && name[4] != '.' && name[5] != '.' && name[6] != '.';
    assert Text.LastDot(name) == 3;
    var ext := ExtName(name);
    assert ext == name[3..];
    var lower := Text.Lower(ext);
    assert lower[1..4] == "png";
    assert Text.OccursAt(lower, "png", 1);
    var mime := "image/png";
    assert mime[6..9] == "png";
    assert Text.OccursAt(mime, "png", 6);
  }

  /** The mimetype is not lower-cased: "image/PNG" is refused. */
  lemma RejectsUpperCaseMimetype()
    ensures !CheckFileType("oak.png", "image/PNG")
  {
    var m := "image/PNG";
    assert forall i :: 0 <= i < |m| ==> m[i] != 'p' && m[i] != 'j';
    forall i | 0 <= i <= |m|
      ensures !Text.OccursAt(m, "jpeg", i) && !Text.OccursAt(m, "jpg", i) && !Text.OccursAt(m, "png", i)
    {
      if i < |m| {
        TailMismatch(m, "jpeg", i);
        TailMismatch(m, "jpg", i);
        TailMismatch(m, "png", i);
      }
    }
  }

  /** A pattern cannot occur where its first character does not. */
  lemma TailMismatch(s: string, q: string, i: int)
    requires 0 <= i < |s| && |q| > 0 && s[i] != q[0]
    ensures !Text.OccursAt(s, q, i)
  {
  }

  /** A name without a dot has no extension and is refused whatever its mimetype. */
  lemma RejectsNameWithoutDot(name: string, mimetype: string)
    requires forall i :: 0 <= i < |name| ==> name[i] != '.'
    ensures !CheckFileType(name, mimetype)
  {
    assert Text.LastDot(name) == -1;
  }

  /** The match is unanchored: ".jpgx" passes as an extension. */
  lemma AcceptsUnanchoredExtension()
    ensures CheckFileType("oak.jpgx", "image/jpeg")
  {
    var name := "oak.jpgx";
    assert name[3] == '.' && name[4] != '.' && name[5] != '.' && name[6] != '.' && name[7] != '.';
    assert Text.LastDot(name) == 3;
    var ext := ExtName(name);
    assert ext == name[3..];
    var lower := Text.Lower(ext);
    assert lower[1..4] == "jpg";
    assert Text.OccursAt(lower, "jpg", 1);
    var mime := "image/jpeg";
    assert mime[6..10] == "jpeg";
    assert Text.OccursAt(mime, "jpeg", 6);
  }

  /** The name multer stores an upload under: a prefix, the upload time, and the
      original extension. */
  function StoredName(prefix: string, stamp: string, originalName: string): (r: string)
    ensures |r| == |prefix| + |stamp| + |ExtName(originalName)|
    ensures r[..|prefix|] == prefix
  {
    prefix + stamp + ExtName(originalName)
  }

  /** The stored name keeps the extension the filter checked, whenever the prefix and
      the time stamp hold no '.'. */
  lemma StoredNameKeepsExtension(prefix: string, stamp: string, originalName: string)
    requires |prefix| > 0
    requires forall i :: 0 <= i < |prefix| ==> prefix[i] != '.'
    requires forall i :: 0 <= i < |stamp| ==> stamp[i] != '.'
    ensures ExtName(StoredName(prefix, stamp, originalName)) == ExtName(originalName)
  {
    var head := prefix + stamp;
    var e := ExtName(originalName);
    var s := head + e;
    assert StoredName(prefix, stamp, originalName) == s;
    assert forall i :: 0 <= i < |head| ==> head[i] != '.' by {
      forall i | 0 <= i < |head| ensures head[i] != '.' {
        if i < |prefix| { assert head[i] == prefix[i]; } else { assert head[i] == stamp[i - |prefix|]; }
      }
    }
    var d := Text.LastDot(s);
    if e == "" {
      assert s == head;
      assert d == -1;
    } else {
      assert s[|head|] == '.';
      assert forall j :: |head| < j < |s| ==> s[j] == e[j - |head|];
      assert d == |head|;
      assert s != ".." by { assert s[0] == head[0]; }
      assert s[d..] == e;
    }
  }
}
