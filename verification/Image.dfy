/** An image reference, split the way a registry's manifests endpoint wants it. */
module Image {
  import opened Wrappers
  import opened Text

  datatype ImageRef = ImageRef(registry: string, repository: string, reference: string)

  const DOCKER_HUB := "registry-1.docker.io"
  const LIBRARY := "library/"
  const LATEST := "latest"

  predicate Lacks(s: string, c: char) { c !in s }

  /** Nothing, or what ends with a slash. */
  predicate EndsAtASlash(s: string) { s == "" || s[|s| - 1] == '/' }

  /** Around the last slash, which stays with what comes before it. */
  function AtLastSlash(s: string): (r: (string, string))
    ensures s == r.0 + r.1 && EndsAtASlash(r.0) && Lacks(r.1, '/')
  {
    if EndsAtASlash(s) then (s, "")
    else
      var r := AtLastSlash(s[..|s| - 1]);
      assert s == r.0 + (r.1 + [s[|s| - 1]]);
      (r.0, r.1 + [s[|s| - 1]])
  }

  /** The name and the reference: around the first `@`, or else around the first colon after the
      last slash; earlier colons stay in the name. */
  function NameAndReference(image: string): (string, string) {
    match SplitOnce(image, '@')
    case Some(halves) => halves
    case None =>
      var (head, tail) := AtLastSlash(image);
      match SplitOnce(tail, ':')
      case Some(halves) => (head + halves.0, halves.1)
      case None => (image, LATEST)
  }

  /** The test that makes a first segment a registry. */
  predicate IsRegistry(first: string) {
    '.' in first || ':' in first || first == "localhost"
  }

  function RegistryAndRepository(name: string): (string, string) {
    match SplitOnce(name, '/')
    case Some(halves) => if IsRegistry(halves.0) then halves else (DOCKER_HUB, name)
    case None => (DOCKER_HUB, LIBRARY + name)
  }

  function ImageReference(image: string): ImageRef {
    var named := NameAndReference(image);
    var placed := RegistryAndRepository(named.0);
    ImageRef(placed.0, placed.1, named.1)
  }

  /** The separator an image is written with. */
  function Separator(image: string): char { if '@' in image then '@' else ':' }

  function Spelling(r: ImageRef, separator: char): string {
    r.registry + "/" + r.repository + [separator] + r.reference
  }

  lemma {:induction false} AtLastSlashIs(head: string, tail: string)
    requires Lacks(tail, '/') && EndsAtASlash(head)
    ensures AtLastSlash(head + tail) == (head, tail)
  {
    var s := head + tail;
    if tail == "" {
      assert s == head;
    } else {
      var shorter := tail[..|tail| - 1];
      assert s[..|s| - 1] == head + shorter;
      AtLastSlashIs(head, shorter);
      assert s[|s| - 1] == tail[|tail| - 1] && tail == shorter + [tail[|tail| - 1]];
    }
  }

  lemma LacksBoth(a: string, b: string, c: char)
    ensures Lacks(a + b, c) <==> Lacks(a, c) && Lacks(b, c)
  {
    assert forall i :: 0 <= i < |a| ==> (a + b)[i] == a[i];
    assert forall i :: 0 <= i < |b| ==> (a + b)[|a| + i] == b[i];
  }

  /** The end of a name: what follows its last slash, with no tag left in it. */
  predicate NameEnd(head: string, tail: string) {
    Lacks(tail, '/') && Lacks(tail, ':') && EndsAtASlash(head)
  }

  lemma AroundAColon(tail: string, tag: string, c: char)
    requires c != ':'
    ensures Lacks(tail + ":" + tag, c) <==> Lacks(tail, c) && Lacks(tag, c)
  {
    LacksBoth(tail + ":", tag, c);
    LacksBoth(tail, ":", c);
  }

  /** Writing a name with a tag and splitting it again gives them back. */
  lemma TaggedSplits(head: string, tail: string, tag: string)
    requires NameEnd(head, tail) && Lacks(tag, '/')
    requires Lacks(head, '@') && Lacks(tail, '@') && Lacks(tag, '@')
    ensures Lacks(head + (tail + ":" + tag), '@')
    ensures NameAndReference(head + (tail + ":" + tag)) == (head + tail, tag)
  {
    hide AtLastSlash, SplitOnce;
    AroundAColon(tail, tag, '/');
    AroundAColon(tail, tag, '@');
    LacksBoth(head, tail + ":" + tag, '@');
    AtLastSlashIs(head, tail + ":" + tag);
    SplitOnceIs(tail + ":" + tag, ':', tail, tag);
  }

  lemma LatestIsATag()
    ensures Lacks(LATEST, '/') && Lacks(LATEST, '@')
  {
  }

  /** What splitting leaves in each part, for an image without a digest. */
  lemma TaggedParts(image: string) returns (head: string, tail: string)
    requires Lacks(image, '@')
    ensures NameEnd(head, tail) && Lacks(NameAndReference(image).1, '/')
    ensures Lacks(head, '@') && Lacks(tail, '@') && Lacks(NameAndReference(image).1, '@')
    ensures NameAndReference(image).0 == head + tail
    ensures image == head + tail + (":" + NameAndReference(image).1)
            || (image == head + tail && NameAndReference(image).1 == LATEST)
  {
    hide AtLastSlash, SplitOnce;
    var rest := AtLastSlash(image).1;
    head := AtLastSlash(image).0;
    LacksBoth(head, rest, '@');
    LatestIsATag();
    match SplitOnce(rest, ':') {
      case Some(halves) =>
        tail := halves.0;
        AroundAColon(tail, halves.1, '@');
        AroundAColon(tail, halves.1, '/');
        assert head + (tail + ":" + halves.1) == head + tail + (":" + halves.1);
      case None =>
        tail := rest;
    }
  }

  /** A registry and repository, spelled as a name, split back into themselves. */
  lemma PlacedSplits(name: string)
    ensures var placed := RegistryAndRepository(name);
            && RegistryAndRepository(placed.0 + "/" + placed.1) == placed
            && IsRegistry(placed.0) && '/' !in placed.0
            && (name == placed.0 + "/" + placed.1
                || (placed.0 == DOCKER_HUB && (name == placed.1 || LIBRARY + name == placed.1)))
  {
    var placed := RegistryAndRepository(name);
    assert DOCKER_HUB[10] == '.';
    SplitOnceIs(placed.0 + "/" + placed.1, '/', placed.0, placed.1);
  }

  /** A slash is in a name exactly when its head is not empty. */
  lemma SlashIsInTheHead(head: string, tail: string)
    requires NameEnd(head, tail)
    ensures head == [] <==> Lacks(head + tail, '/')
  {
    LacksBoth(head, tail, '/');
  }

  /** The end of a name is the end of its full spelling. */
  lemma PlacedEndsAsNamed(head: string, tail: string) returns (prefix: string)
    requires NameEnd(head, tail) && Lacks(head, '@')
    ensures var placed := RegistryAndRepository(head + tail);
            placed.0 + "/" + placed.1 == prefix + tail
    ensures NameEnd(prefix, tail) && Lacks(prefix, '@')
  {
    SlashIsInTheHead(head, tail);
    var name := head + tail;
    match SplitOnce(name, '/') {
      case Some(halves) =>
        prefix := if IsRegistry(halves.0) then head else DOCKER_HUB + "/" + head;
      case None =>
        prefix := DOCKER_HUB + "/" + LIBRARY;
    }
    LacksBoth(DOCKER_HUB + "/", head, '@');
    assert DOCKER_HUB + "/" + (LIBRARY + tail) == DOCKER_HUB + "/" + LIBRARY + tail;
    assert DOCKER_HUB + "/" + (head + tail) == DOCKER_HUB + "/" + head + tail;
  }

  /** A name before a digest holds no `@`, and neither does its full spelling. */
  lemma PlacedLacksAt(name: string)
    requires Lacks(name, '@')
    ensures var placed := RegistryAndRepository(name); Lacks(placed.0 + "/" + placed.1, '@')
  {
    LacksBoth(DOCKER_HUB + "/", name, '@');
    LacksBoth(DOCKER_HUB + "/" + LIBRARY, name, '@');
    assert DOCKER_HUB + "/" + (LIBRARY + name) == DOCKER_HUB + "/" + LIBRARY + name;
  }

  lemma DigestSplitsAgain(image: string)
    requires '@' in image
    ensures NameAndReference(Spelling(ImageReference(image), '@')) ==
            (ImageReference(image).registry + "/" + ImageReference(image).repository, NameAndReference(image).1)
  {
    hide RegistryAndRepository;
    var r := ImageReference(image);
    var full := r.registry + "/" + r.repository;
    PlacedLacksAt(NameAndReference(image).0);
    SplitOnceIs(full + "@" + r.reference, '@', full, r.reference);
  }

  lemma TagSplitsAgain(image: string)
    requires Lacks(image, '@')
    ensures NameAndReference(Spelling(ImageReference(image), ':')) ==
            (ImageReference(image).registry + "/" + ImageReference(image).repository, NameAndReference(image).1)
    ensures Lacks(Spelling(ImageReference(image), ':'), '@')
  {
    hide RegistryAndRepository, NameAndReference, Lacks, NameEnd;
    var r := ImageReference(image);
    var head, tail := TaggedParts(image);
    var prefix := PlacedEndsAsNamed(head, tail);
    TaggedSplits(prefix, tail, r.reference);
    assert r.registry + "/" + r.repository + ":" + r.reference == prefix + (tail + ":" + r.reference);
  }

  /** Splitting is a normal form, for every string: spelled back out with the separator the image used,
      the three parts split into the same three. */
  lemma SplittingIsANormalForm(image: string)
    ensures ImageReference(Spelling(ImageReference(image), Separator(image))) == ImageReference(image)
    ensures Separator(Spelling(ImageReference(image), Separator(image))) == Separator(image)
  {
    hide RegistryAndRepository, NameAndReference;
    PlacedSplits(NameAndReference(image).0);
    if '@' in image {
      DigestSplitsAgain(image);
    } else {
      TagSplitsAgain(image);
    }
  }

  /** Nothing of an image is lost: it is its full spelling, less a registry, a namespace and a tag that it
      did not state and that are the defaults. */
  lemma NothingIsLost(image: string)
    ensures var r, name := ImageReference(image), NameAndReference(image).0;
            && (name == r.registry + "/" + r.repository
                || (r.registry == "registry-1.docker.io"
                    && (name == r.repository || "library/" + name == r.repository)))
            && (image == name + ([Separator(image)] + r.reference)
                || (image == name && r.reference == "latest" && '@' !in image))
  {
    hide RegistryAndRepository, SplitOnce, IsRegistry;
    PlacedSplits(NameAndReference(image).0);
    if '@' !in image {
      var head, tail := TaggedParts(image);
    }
  }

  // ---- The parts, in the image's own terms ----

  /** How an image states its reference: after an `@`; or, with no `@`, after a colon in its last segment;
      or not at all. */
  ghost predicate States(image: string, name: string, reference: string) {
    || ('@' !in name && image == name + "@" + reference)
    || ('@' !in image && image == name + ":" + reference && '/' !in reference && NoTag(name))
    || ('@' !in image && image == name && reference == "latest" && NoTag(name))
  }

  /** No colon in the last segment. */
  ghost predicate NoTag(name: string) {
    exists head, tail :: name == head + tail && (head == "" || head[|head| - 1] == '/') && '/' !in tail && ':' !in tail
  }

  lemma ReferenceIsWhatIsStated(image: string, name: string, reference: string)
    requires States(image, name, reference)
    ensures NameAndReference(image) == (name, reference)
  {
    if '@' !in name && image == name + "@" + reference {
      SplitOnceIs(image, '@', name, reference);
    } else {
      var head, tail :| name == head + tail && (head == "" || head[|head| - 1] == '/') && '/' !in tail && ':' !in tail;
      if image == name + ":" + reference {
        assert image == head + (tail + ":" + reference);
        assert forall i :: 0 <= i < |image| ==> image[i] != '@';
        assert Lacks(head, '@') && Lacks(tail, '@') && Lacks(reference, '@') by { LacksParts(head, tail, reference); }
        TaggedSplits(head, tail, reference);
      } else {
        AtLastSlashIs(head, tail);
      }
    }
  }

  lemma LacksParts(head: string, tail: string, tag: string)
    requires Lacks(head + (tail + ":" + tag), '@')
    ensures Lacks(head, '@') && Lacks(tail, '@') && Lacks(tag, '@')
  {
    LacksBoth(head, tail + ":" + tag, '@');
    AroundAColon(tail, tag, '@');
  }

  /** The three parts of any image: the reference it states, `latest` where it states none; a first segment with
      a dot or a colon in it, or `localhost`, as the registry; and otherwise the default registry, a name of
      one segment being in the `library` namespace. */
  lemma PartsAreWhatIsStated(image: string, name: string, reference: string, first: string, rest: string)
    requires States(image, name, reference)
    ensures ImageReference(image).reference == reference
    ensures '/' !in first && name == first + "/" + rest ==>
              if '.' in first || ':' in first || first == "localhost" then
                ImageReference(image).registry == first && ImageReference(image).repository == rest
              else ImageReference(image).registry == "registry-1.docker.io" && ImageReference(image).repository == name
    ensures '/' !in name ==>
              && ImageReference(image).registry == "registry-1.docker.io"
              && ImageReference(image).repository == "library/" + name
  {
    hide NameAndReference, States;
    ReferenceIsWhatIsStated(image, name, reference);
    if '/' !in first && name == first + "/" + rest {
      SplitOnceIs(name, '/', first, rest);
    }
  }
}
