/**
  Resizing a prompt with image tokens to a given length: every image token stays, as much text as
  fits stays in order, and padding fills the rest.
 */
module TokenResize {

  type Token = int

  function Images(s: seq<Token>, image: Token): (n: nat)
    ensures n <= |s|
  {
    if s == [] then 0 else (if s[0] == image then 1 else 0) + Images(s[1..], image)
  }

  /** The tokens that are not image tokens, in order. */
  function Texts(s: seq<Token>, image: Token): (t: seq<Token>)
    ensures |t| == |s| - Images(s, image) && image !in t
  {
    if s == [] then [] else if s[0] == image then Texts(s[1..], image) else [s[0]] + Texts(s[1..], image)
  }

  /** All image tokens and the first `budget` others, in order. */
  function Keep(s: seq<Token>, image: Token, budget: nat): seq<Token> {
    if s == [] then []
    else if s[0] == image then [s[0]] + Keep(s[1..], image, budget)
    else if budget > 0 then [s[0]] + Keep(s[1..], image, budget - 1)
    else Keep(s[1..], image, 0)
  }

  function Pads(pad: Token, n: nat): (p: seq<Token>)
    ensures |p| == n && forall i :: 0 <= i < n ==> p[i] == pad
  {
    seq(n, _ => pad)
  }

  /** The padding token: never the image token. */
  function PadFor(image: Token, pad: Token): (p: Token)
    ensures p != image
  {
    if pad == image then (if image != 0 then 0 else 1) else pad
  }

  function Min(a: nat, b: nat): nat { if a < b then a else b }

  /** The resized prompt, for a target no smaller than the number of image tokens. */
  function Resized(s: seq<Token>, target: nat, image: Token, pad: Token): seq<Token>
    requires Images(s, image) <= target
  {
    var kept := Keep(s, image, target - Images(s, image));
    kept + Pads(PadFor(image, pad), if |kept| <= target then target - |kept| else 0)
  }

  datatype Result = Resize(tokens: seq<Token>) | ValueError

  lemma {:induction false} KeepSize(s: seq<Token>, image: Token, budget: nat)
    ensures |Keep(s, image, budget)| == Images(s, image) + Min(budget, |Texts(s, image)|)
    ensures Images(Keep(s, image, budget), image) == Images(s, image)
    ensures Texts(Keep(s, image, budget), image) == Texts(s, image)[..Min(budget, |Texts(s, image)|)]
  {
    if s != [] {
      if s[0] == image {
        KeepSize(s[1..], image, budget);
        KeepHead(s, image, budget);
      } else if budget > 0 {
        KeepSize(s[1..], image, budget - 1);
        KeepHead(s, image, budget);
      } else {
        KeepSize(s[1..], image, 0);
      }
    }
  }

  lemma KeepHead(s: seq<Token>, image: Token, budget: nat)
    requires s != [] && (s[0] == image || budget > 0)
    ensures Keep(s, image, budget) != [] && Keep(s, image, budget)[0] == s[0]
    ensures Keep(s, image, budget)[1..] == Keep(s[1..], image, if s[0] == image then budget else budget - 1)
  {
  }

  lemma {:induction false} ImagesConcat(a: seq<Token>, b: seq<Token>, image: Token)
    ensures Images(a + b, image) == Images(a, image) + Images(b, image)
    ensures Texts(a + b, image) == Texts(a, image) + Texts(b, image)
  {
    if a == [] {
      assert a + b == b;
    } else {
      assert (a + b)[1..] == a[1..] + b;
      ImagesConcat(a[1..], b, image);
    }
  }

  lemma {:induction false} PadsAreText(p: Token, n: nat, image: Token)
    requires p != image
    ensures Images(Pads(p, n), image) == 0 && Texts(Pads(p, n), image) == Pads(p, n)
  {
    if n > 0 {
      assert Pads(p, n)[1..] == Pads(p, n - 1);
      PadsAreText(p, n - 1, image);
      assert [p] + Pads(p, n - 1) == Pads(p, n);
    }
  }

  /**
    The result has exactly the target length and every image token, and its other tokens are the
    longest prefix of the original ones that fits, followed by padding.
   */
  lemma ResizedIs(s: seq<Token>, target: nat, image: Token, pad: Token)
    requires Images(s, image) <= target
    ensures var r, fit := Resized(s, target, image, pad), Min(target - Images(s, image), |Texts(s, image)|);
            && |r| == target && Images(r, image) == Images(s, image)
            && Texts(r, image) == Texts(s, image)[..fit] + Pads(
                 if pad != image then pad else if image == 0 then 1 else 0, target - Images(s, image) - fit)
  {
    hide Keep, Texts, Images;
    var budget := target - Images(s, image);
    KeepSize(s, image, budget);
    var kept, p := Keep(s, image, budget), PadFor(image, pad);
    PadsAreText(p, target - |kept|, image);
    ImagesConcat(kept, Pads(p, target - |kept|), image);
  }

  /** `a` is `b` with some tokens left out. */
  predicate Subsequence(a: seq<Token>, b: seq<Token>) {
    if a == [] then true else if b == [] then false
    else if a[0] == b[0] then Subsequence(a[1..], b[1..]) else Subsequence(a, b[1..])
  }

  lemma {:induction false} SubsequenceSkips(a: seq<Token>, b: seq<Token>)
    requires b != [] && Subsequence(a, b[1..])
    ensures Subsequence(a, b)
    decreases |b|, 0
  {
    if a != [] && a[0] == b[0] {
      if |b| > 1 {
        SubsequenceTail(a, b[1..]);
      }
    }
  }

  lemma {:induction false} SubsequenceTail(a: seq<Token>, b: seq<Token>)
    requires a != [] && Subsequence(a, b)
    ensures Subsequence(a[1..], b)
    decreases |b|, 1
  {
    if a[0] == b[0] {
      SubsequenceSkips(a[1..], b);
    } else {
      SubsequenceTail(a, b[1..]);
      SubsequenceSkips(a[1..], b);
    }
  }

  /** What is kept comes in the original order, image tokens and text together. */
  lemma {:induction false} KeptInOrder(s: seq<Token>, image: Token, budget: nat)
    ensures Subsequence(Keep(s, image, budget), s)
  {
    if s != [] {
      if s[0] == image {
        KeptInOrder(s[1..], image, budget);
        KeepHead(s, image, budget);
      } else if budget > 0 {
        KeptInOrder(s[1..], image, budget - 1);
        KeepHead(s, image, budget);
      } else {
        KeptInOrder(s[1..], image, 0);
        SubsequenceSkips(Keep(s, image, 0), s);
      }
    }
  }

  // ---- resizing twice ----------------------------------------------------------------------------------------

  lemma {:induction false} KeepTwice(s: seq<Token>, image: Token, a: nat, b: nat)
    requires b <= a
    ensures Keep(Keep(s, image, a), image, b) == Keep(s, image, b)
  {
    if s != [] {
      if s[0] == image {
        KeepHead(s, image, a);
        KeepTwice(s[1..], image, a, b);
      } else if a > 0 {
        KeepHead(s, image, a);
        KeepTwice(s[1..], image, a - 1, if b > 0 then b - 1 else 0);
      } else {
        KeepTwice(s[1..], image, 0, 0);
      }
    }
  }

  /** What is kept of the first token, and the budget it leaves. */
  function KeepFirst(x: Token, image: Token, budget: nat): seq<Token> { if x == image || budget > 0 then [x] else [] }

  function Left(x: Token, image: Token, budget: nat): nat { if x == image || budget == 0 then budget else budget - 1 }

  lemma KeepStep(s: seq<Token>, image: Token, budget: nat)
    requires s != []
    ensures Keep(s, image, budget) == KeepFirst(s[0], image, budget) + Keep(s[1..], image, Left(s[0], image, budget))
    ensures budget - Min(budget, |Texts(s, image)|) == Left(s[0], image, budget) - Min(Left(s[0], image, budget), |Texts(s[1..], image)|)
  {
  }

  lemma {:induction false} KeepConcat(a: seq<Token>, b: seq<Token>, image: Token, budget: nat)
    ensures Keep(a + b, image, budget)
            == Keep(a, image, budget) + Keep(b, image, budget - Min(budget, |Texts(a, image)|))
  {
    hide Keep, Texts, Left, KeepFirst;
    if a == [] {
      assert a + b == b;
      NothingKept(image, budget);
    } else {
      assert (a + b)[1..] == a[1..] + b;
      KeepStep(a + b, image, budget);
      KeepStep(a, image, budget);
      KeepConcat(a[1..], b, image, Left(a[0], image, budget));
    }
  }

  lemma NothingKept(image: Token, budget: nat)
    ensures Keep([], image, budget) == [] && Texts([], image) == []
  {
  }

  lemma {:induction false} KeepPads(p: Token, n: nat, image: Token, budget: nat)
    requires p != image
    ensures Keep(Pads(p, n), image, budget) == Pads(p, Min(n, budget))
  {
    if n > 0 {
      assert Pads(p, n)[1..] == Pads(p, n - 1);
      if budget > 0 {
        KeepPads(p, n - 1, image, budget - 1);
        assert [p] + Pads(p, Min(n - 1, budget - 1)) == Pads(p, Min(n, budget));
      } else {
        KeepPads(p, n - 1, image, 0);
      }
    }
  }

  /** Resizing to one length and then to a smaller one is resizing straight to the smaller. */
  lemma ResizeTwice(s: seq<Token>, t1: nat, t2: nat, image: Token, pad: Token)
    requires Images(s, image) <= t2 <= t1
    ensures Images(Resized(s, t1, image, pad), image) == Images(s, image)
    ensures Resized(Resized(s, t1, image, pad), t2, image, pad) == Resized(s, t2, image, pad)
  {
    hide Keep, Texts, Images;
    var n, p := Images(s, image), PadFor(image, pad);
    var b1, b2 := t1 - n, t2 - n;
    ResizedIs(s, t1, image, pad);
    KeepSize(s, image, b1);
    KeepSize(s, image, b2);
    var kept := Keep(s, image, b1);
    KeepConcat(kept, Pads(p, t1 - |kept|), image, b2);
    KeepTwice(s, image, b1, b2);
    var left := b2 - Min(b2, |Texts(kept, image)|);
    KeepPads(p, t1 - |kept|, image, left);
    var again := Keep(Resized(s, t1, image, pad), image, b2);
    assert again == Keep(s, image, b2) + Pads(p, Min(t1 - |kept|, left));
    PadsJoin(p, Min(t1 - |kept|, left), t2 - |again|);
    assert again + Pads(p, t2 - |again|) == Keep(s, image, b2) + (Pads(p, Min(t1 - |kept|, left)) + Pads(p, t2 - |again|));
  }

  lemma PadsJoin(p: Token, a: nat, b: nat)
    ensures Pads(p, a) + Pads(p, b) == Pads(p, a + b)
  {
  }

  // ---- the loop ------------------------------------------------------------------------------------------------

  lemma {:induction false} KeepPrefix(s: seq<Token>, image: Token, budget: nat, i: nat)
    requires i < |s|
    ensures Keep(s[..i + 1], image, budget) ==
            if s[i] == image || |Texts(s[..i], image)| < budget then Keep(s[..i], image, budget) + [s[i]] else Keep(s[..i], image, budget)
    ensures |Texts(s[..i + 1], image)| == |Texts(s[..i], image)| + if s[i] == image then 0 else 1
    ensures Images(s[..i + 1], image) == Images(s[..i], image) + if s[i] == image then 1 else 0
  {
    assert s[..i + 1] == s[..i] + [s[i]];
    KeepConcat(s[..i], [s[i]], image, budget);
    ImagesConcat(s[..i], [s[i]], image);
    assert [s[i]][1..] == [];
  }

  /** Once the target is reached, nothing that follows would be kept. */
  lemma NothingMore(s: seq<Token>, image: Token, target: nat, i: nat)
    requires i <= |s| && Images(s, image) <= target && |Keep(s[..i], image, target - Images(s, image))| == target
    ensures Keep(s, image, target - Images(s, image)) == Keep(s[..i], image, target - Images(s, image))
  {
    hide Keep, Texts, Images;
    var budget := target - Images(s, image);
    assert s == s[..i] + s[i..];
    KeepSize(s[..i], image, budget);
    ImagesConcat(s[..i], s[i..], image);
    KeepConcat(s[..i], s[i..], image, budget);
    KeepSize(s[i..], image, budget - Min(budget, |Texts(s[..i], image)|));
  }

  /** With room for every token, all are kept. */
  lemma {:induction false} KeepAll(s: seq<Token>, image: Token, budget: nat)
    requires |Texts(s, image)| <= budget
    ensures Keep(s, image, budget) == s
  {
    if s != [] {
      if s[0] == image { KeepAll(s[1..], image, budget); } else { KeepAll(s[1..], image, budget - 1); }
    }
  }

  method ResizeMultimodalInputIds(s: seq<Token>, target: int, image: Token, pad: Token) returns (r: Result)
    ensures r.ValueError? <==> target <= 0 || target < Images(s, image)
    ensures r.Resize? ==> r.tokens == Resized(s, target, image, pad)
  {
    hide Keep, Texts, Images;
    var padToken := pad;
    if pad == image { padToken := if image != 0 then 0 else 1; }
    if target <= 0 { return ValueError; }
    var images := Images(s, image);
    if target < images { return ValueError; }
    KeepSize(s, image, target - images);
    if |s| == target {
      KeepAll(s, image, target - images);
      assert s + Pads(padToken, 0) == s;
      return Resize(s);
    }
    var kept := KeepLoop(s, target, image, target - images);
    if |kept| < target { kept := kept + Pads(padToken, target - |kept|); } else { assert kept + Pads(padToken, 0) == kept; }
    r := Resize(kept);
  }

  /** The loop over the tokens, which stops as soon as the target is reached. */
  method KeepLoop(s: seq<Token>, target: nat, image: Token, budget: nat) returns (resized: seq<Token>)
    requires Images(s, image) <= target && budget == target - Images(s, image)
    ensures resized == Keep(s, image, budget) && |resized| <= target
  {
    hide Keep, Texts, Images;
    resized := [];
    var kept := 0;
    var i := 0;
    ImagesOfNone(s, image, budget);
    while i < |s|
      invariant 0 <= i <= |s| && resized == Keep(s[..i], image, budget) && |resized| <= target
      invariant kept == Min(budget, |Texts(s[..i], image)|) && |resized| == Images(s[..i], image) + kept
    {
      KeepPrefix(s, image, budget, i);
      ImagesSoFar(s, image, i + 1);
      if s[i] == image {
        resized := resized + [s[i]];
      } else if kept < budget {
        resized := resized + [s[i]];
        kept := kept + 1;
      }
      i := i + 1;
      if |resized| == target {
        NothingMore(s, image, target, i);
        return;
      }
    }
    assert s[..|s|] == s;
  }

  lemma ImagesOfNone(s: seq<Token>, image: Token, budget: nat)
    ensures Images(s[..0], image) == 0 && |Texts(s[..0], image)| == 0 && |Keep(s[..0], image, budget)| == 0
  {
  }

  lemma ImagesSoFar(s: seq<Token>, image: Token, i: nat)
    requires i <= |s|
    ensures Images(s[..i], image) <= Images(s, image)
  {
    assert s == s[..i] + s[i..];
    ImagesConcat(s[..i], s[i..], image);
  }
}
