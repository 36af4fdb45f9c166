/** The pass switcher: it puts one post-processing pass at the head of the first
    composer's chain (creating a composer when there is none) and takes it out again.
    Its memory is three module-level variables, modelled as the fields of a
    `Switcher`. */
module PassSwitcher {
  import opened Wrappers
  import opened Seqs
  import opened RenderCore

  /** A post-processing pass, as the switcher sees it: the fields it writes, whether
      it has an `updateSize` method, and the calls it receives. */
  class Pass {
    var renderToScreen: bool
    var viewportSize: Option<Size>
    const hasUpdateSize: bool
    /** The sizes passed to `updateSize`, in order. */
    var resizes: seq<Size>
    /** How many times `destroy` was called. */
    var destroyCount: nat

    constructor(hasUpdateSize: bool)
      ensures this.hasUpdateSize == hasUpdateSize
      ensures !renderToScreen && viewportSize.None? && resizes == [] && destroyCount == 0
    {
      this.hasUpdateSize := hasUpdateSize;
      renderToScreen := false;
      viewportSize := None;
      resizes := [];
      destroyCount := 0;
    }

    /** `pass.updateSize(size, renderer)` */
    method UpdateSize(size: Size)
      modifies this`resizes
      ensures resizes == old(resizes) + [size]
    {
      resizes := resizes + [size];
    }

    /** `pass.destroy(renderer)` */
    method Destroy()
      modifies this`destroyCount
      ensures destroyCount == old(destroyCount) + 1
    {
      destroyCount := destroyCount + 1;
    }
  }

  /** A composer: its chain of passes (`null` stands for the `undefined` that
      `shift` returns on an empty chain) and its size, when it has one. */
  class Composer {
    var passes: seq<Pass?>
    var size: Option<Size>
    /** How many times `destroy` was called. */
    var destroyCount: nat

    /** `new goo.Composer()`: an empty chain, no size. */
    constructor()
      ensures passes == [] && size.None? && destroyCount == 0
    {
      passes := [];
      size := None;
      destroyCount := 0;
    }

    /** `composer.destroy(renderer)` */
    method Destroy()
      modifies this`destroyCount
      ensures destroyCount == old(destroyCount) + 1
    {
      destroyCount := destroyCount + 1;
    }
  }

  /** The render system's list of composers. */
  class RenderSystem {
    var composers: seq<Composer>

    constructor(composers: seq<Composer>)
      ensures this.composers == composers
    {
      this.composers := composers;
    }
  }

  /** What `passes.shift()` returns: the head, or `undefined` on an empty chain. */
  function Head(passes: seq<Pass?>): (r: Pass?)
    ensures passes == [] ==> r == null
    ensures passes != [] ==> passes == [r] + passes[1..]
  {
    if passes == [] then null else passes[0]
  }

  /** The chain after `shift()` then `unshift(pass)`: the pass takes the head's place. */
  function Spliced(passes: seq<Pass?>, pass: Pass?): (r: seq<Pass?>)
    ensures |r| == if passes == [] then 1 else |passes|
    ensures r[0] == pass && forall i :: 1 <= i < |r| ==> r[i] == passes[i]
  {
    [pass] + (if passes == [] then [] else passes[1..])
  }

  /** The chain after `ArrayUtil.remove(passes, added)` then `unshift(original)`. */
  function Restored(passes: seq<Pass?>, added: Pass?, original: Pass?): (r: seq<Pass?>)
    ensures |r| >= 1 && r[0] == original
  {
    [original] + RemoveFirst(passes, added)
  }

  /** Restoring takes one occurrence of the added pass out of the chain and puts
      the saved head in: every other pass stays. */
  lemma RestoredKeepsOthers(passes: seq<Pass?>, added: Pass?, original: Pass?)
    ensures multiset(Restored(passes, added, original)) == multiset(passes) - multiset{added} + multiset{original}
  {
    RemoveFirstMultiset(passes, added);
  }

  /** On a non-empty chain, splicing a pass in and restoring gives back the chain,
      whether or not the pass was in it already. */
  lemma SpliceThenRestore(passes: seq<Pass?>, pass: Pass?)
    requires passes != []
    ensures Restored(Spliced(passes, pass), pass, Head(passes)) == passes
  {
    RemoveFront(pass, passes[1..]);
    assert [passes[0]] + passes[1..] == passes;
  }

  /** On an empty chain the round trip leaves the `undefined` that `shift` returned. */
  lemma EmptyChainRestoresUndefined(pass: Pass?)
    ensures Restored(Spliced([], pass), pass, Head([])) == [null]
  {
    RemoveFront(pass, []);
  }

  /** Two nested switches from `[h, x]`, undone twice, end with the first added pass
      twice at the head: the second switch overwrote the saved head with it. */
  lemma NestedSwitchLosesHead(h: Pass?, x: Pass?, a: Pass?, b: Pass?)
    requires b != a && b != x
    ensures Spliced(Spliced([h, x], a), b) == [b, x]
    ensures Restored(Spliced(Spliced([h, x], a), b), b, Head(Spliced([h, x], a))) == [a, x]
    ensures Restored([a, x], b, a) == [a, a, x]
  {
    assert Spliced([h, x], a) == [a, x];
    assert Spliced([a, x], b) == [b, x];
    assert RemoveFirst([b, x], b) == [x] by {
      RemoveFront(b, [x]);
      assert [b] + [x] == [b, x];
    }
    assert Restored([b, x], b, a) == [a, x];
    assert RemoveFirst([a, x], b) == [a, x] by {
      assert b !in [a, x];
    }
  }

  /** The switcher's module-level memory. */
  class Switcher {
    var originalPass: Pass?
    var originalComposer: Composer?
    var addedPass: Pass?

    constructor()
      ensures originalPass == null && originalComposer == null && addedPass == null
    {
      originalPass := null;
      originalComposer := null;
      addedPass := null;
    }

    /** Nothing is remembered from an earlier switch. */
    predicate Clean()
      reads this
    {
      originalPass == null && originalComposer == null && addedPass == null
    }

    /** `switchPass(pass, ctx, goo)`: with a composer, the pass replaces the head of
        the first chain, whose old head is saved, and renders off-screen; without one,
        a new composer holding only the pass is added and remembered, and the pass
        renders to the screen. When the composer has a size, the pass is resized (if
        it can be) and takes the size as its viewport size. */
    method SwitchPass(pass: Pass, rs: RenderSystem)
      modifies this, pass`renderToScreen, pass`viewportSize, pass`resizes, rs
      modifies (if |rs.composers| > 0 then {rs.composers[0]} else {})`passes
      ensures addedPass == pass
      ensures |old(rs.composers)| > 0 ==>
        && rs.composers == old(rs.composers)
        && originalPass == Head(old(rs.composers[0].passes))
        && rs.composers[0].passes == Spliced(old(rs.composers[0].passes), pass)
        && originalComposer == old(originalComposer)
        && !pass.renderToScreen
      ensures |old(rs.composers)| == 0 ==>
        && |rs.composers| == 1 && fresh(rs.composers[0])
        && rs.composers[0].passes == [pass] && rs.composers[0].size.None? && rs.composers[0].destroyCount == 0
        && originalComposer == rs.composers[0]
        && originalPass == old(originalPass)
        && pass.renderToScreen
      ensures rs.composers[0].size == old(if |rs.composers| > 0 then rs.composers[0].size else None)
      ensures rs.composers[0].size.Some? ==>
        && pass.viewportSize == rs.composers[0].size
        && pass.resizes == old(pass.resizes) + (if pass.hasUpdateSize then [rs.composers[0].size.value] else [])
      ensures rs.composers[0].size.None? ==> pass.viewportSize == old(pass.viewportSize) && pass.resizes == old(pass.resizes)
      ensures pass.destroyCount == old(pass.destroyCount)
    {
      addedPass := pass;
      var composer: Composer;
      if |rs.composers| > 0 {
        composer := rs.composers[0];
        originalPass := Head(composer.passes);
        composer.passes := if composer.passes == [] then [] else composer.passes[1..];
        pass.renderToScreen := false;
      } else {
        composer := new Composer();
        originalComposer := composer;
        rs.composers := rs.composers + [composer];
        pass.renderToScreen := true;
      }
      composer.passes := [pass] + composer.passes;
      if composer.size.Some? {
        if pass.hasUpdateSize {
          pass.UpdateSize(composer.size.value);
        }
        pass.viewportSize := composer.size;
      }
    }

    /** `switchBack(ctx, goo)`, as written: a remembered composer is destroyed and
        removed from the list; otherwise the added pass (if any) is destroyed and
        removed from the first chain, and the saved head goes back in front. With no
        composer at all the second branch throws a TypeError (`threw`) after the
        destroy. Nothing remembered is forgotten. */
    method SwitchBack(rs: RenderSystem) returns (threw: bool)
      modifies rs
      modifies (if originalComposer != null then {originalComposer} else {})`destroyCount
      modifies (if originalComposer == null && addedPass != null then {addedPass} else {})`destroyCount
      modifies (if originalComposer == null && |rs.composers| > 0 then {rs.composers[0]} else {})`passes
      ensures originalComposer != null ==>
        && !threw
        && originalComposer.destroyCount == old(originalComposer.destroyCount) + 1
        && rs.composers == RemoveFirst(old(rs.composers), originalComposer)
      ensures originalComposer == null ==>
        && (threw <==> |old(rs.composers)| == 0)
        && rs.composers == old(rs.composers)
        && (addedPass != null ==> addedPass.destroyCount == old(addedPass.destroyCount) + 1)
        && (!threw ==> rs.composers[0].passes == Restored(old(rs.composers[0].passes), addedPass, originalPass))
    {
      if originalComposer != null {
        originalComposer.Destroy();
        rs.composers := RemoveFirst(rs.composers, originalComposer);
        return false;
      }
      if addedPass != null {
        addedPass.Destroy();
      }
      if |rs.composers| == 0 {
        return true;
      }
      var composer := rs.composers[0];
      composer.passes := [originalPass] + RemoveFirst(composer.passes, addedPass);
      threw := false;
    }

    /** `switchBack` as evidently intended: the same undo, after which the switcher
        forgets what it remembered, so the next switch starts afresh. */
    method SwitchBackAndReset(rs: RenderSystem) returns (threw: bool)
      modifies this, rs
      modifies (if originalComposer != null then {originalComposer} else {})`destroyCount
      modifies (if originalComposer == null && addedPass != null then {addedPass} else {})`destroyCount
      modifies (if originalComposer == null && |rs.composers| > 0 then {rs.composers[0]} else {})`passes
      ensures Clean()
      ensures old(originalComposer) != null ==>
        && !threw
        && old(originalComposer).destroyCount == old(originalComposer.destroyCount) + 1
        && rs.composers == RemoveFirst(old(rs.composers), old(originalComposer))
      ensures old(originalComposer) == null ==>
        && (threw <==> |old(rs.composers)| == 0)
        && rs.composers == old(rs.composers)
        && (old(addedPass) != null ==> old(addedPass).destroyCount == old(addedPass.destroyCount) + 1)
        && (!threw ==> rs.composers[0].passes == Restored(old(rs.composers[0].passes), old(addedPass), old(originalPass)))
    {
      threw := SwitchBack(rs);
      originalPass := null;
      originalComposer := null;
      addedPass := null;
    }
  }

  /** As written: with no remembered composer and a non-empty first chain,
      `switchPass` then `switchBack` gives the chain back and destroys the pass once,
      whether or not the pass was in the chain already. */
  method RoundTripOnChain(sw: Switcher, rs: RenderSystem, pass: Pass)
    requires sw.originalComposer == null && |rs.composers| > 0 && rs.composers[0].passes != []
    modifies sw, rs, pass, rs.composers[0]
    ensures rs.composers == old(rs.composers)
    ensures rs.composers[0].passes == old(rs.composers[0].passes)
    ensures pass.destroyCount == old(pass.destroyCount) + 1
  {
    ghost var chain := rs.composers[0].passes;
    sw.SwitchPass(pass, rs);
    var threw := sw.SwitchBack(rs);
    SpliceThenRestore(chain, pass);
  }

  /** As written: with no composer, `switchPass` then `switchBack` destroys the composer
      it created and leaves the list empty again, but the switcher still remembers
      that composer. */
  method RoundTripWithNewComposer(sw: Switcher, rs: RenderSystem, pass: Pass) returns (created: Composer)
    requires |rs.composers| == 0
    modifies sw, rs, pass
    ensures rs.composers == [] && fresh(created) && created.destroyCount == 1
    ensures sw.originalComposer == created && !sw.Clean()
  {
    sw.SwitchPass(pass, rs);
    created := rs.composers[0];
    var threw := sw.SwitchBack(rs);
    RemoveFront(created, []);
    assert [created] + [] == [created];
  }

  /** Corrected: from a clean switcher and a non-empty first chain, `switchPass` then
      the resetting `switchBack` gives the chain back, destroys the pass once, and
      leaves the switcher clean, so the round trip can be repeated. */
  method RoundTripFromClean(sw: Switcher, rs: RenderSystem, pass: Pass)
    requires sw.Clean() && |rs.composers| > 0 && rs.composers[0].passes != []
    modifies sw, rs, pass, rs.composers[0]
    ensures sw.Clean()
    ensures rs.composers == old(rs.composers)
    ensures rs.composers[0].passes == old(rs.composers[0].passes)
    ensures pass.destroyCount == old(pass.destroyCount) + 1
  {
    ghost var chain := rs.composers[0].passes;
    sw.SwitchPass(pass, rs);
    var threw := sw.SwitchBackAndReset(rs);
    SpliceThenRestore(chain, pass);
  }

  /** Nested switching through the methods: from `[h, x]`, two switches and two
      switch-backs leave `[a, a, x]` and destroy the second pass twice. */
  method NestedSwitching() returns (a: Pass, x: Pass, chain: seq<Pass?>, bDestroyed: nat)
    ensures chain == [a, a, x] && bDestroyed == 2
  {
    var h := new Pass(false);
    x := new Pass(false);
    var c := new Composer();
    c.passes := [h, x];
    var rs := new RenderSystem([c]);
    var sw := new Switcher();
    a := new Pass(false);
    var b := new Pass(false);
    NestedSwitchLosesHead(h, x, a, b);
    sw.SwitchPass(a, rs);
    assert rs.composers == [c] && c.passes == [a, x] && sw.originalComposer == null;
    sw.SwitchPass(b, rs);
    assert rs.composers == [c] && c.passes == [b, x] && sw.originalPass == a && sw.addedPass == b;
    var threw := sw.SwitchBack(rs);
    assert rs.composers == [c] && c.passes == [a, x] && b.destroyCount == 1;
    threw := sw.SwitchBack(rs);
    chain := c.passes;
    bDestroyed := b.destroyCount;
  }

  /** As written: once a switch has created (and a switch-back removed) a composer,
      a later switch into an existing chain is never undone, because `switchBack`
      keeps taking the remembered-composer branch. The chain keeps the added pass in
      place of its head, and the old composer is destroyed a second time. */
  method StaleComposerKeepsPass() returns (head: Pass, added: Pass, chain: seq<Pass?>, created: Composer)
    ensures chain == [added] && added != head
    ensures created.destroyCount == 2
  {
    var sw := new Switcher();
    var rs := new RenderSystem([]);
    var first := new Pass(true);
    created := RoundTripWithNewComposer(sw, rs, first);
    head := new Pass(true);
    var app := new Composer();
    app.passes := [head];
    rs.composers := [app];
    added := new Pass(true);
    sw.SwitchPass(added, rs);
    assert app.passes == [added] && sw.originalComposer == created && created.destroyCount == 1;
    var threw := sw.SwitchBack(rs);
    chain := app.passes;
  }

  /** Corrected: with the reset, the same sequence gives the application's chain back
      and destroys the created composer once. */
  method StaleComposerFixed() returns (head: Pass, chain: seq<Pass?>, created: Composer)
    ensures chain == [head]
    ensures created.destroyCount == 1
  {
    var sw := new Switcher();
    var rs := new RenderSystem([]);
    var first := new Pass(true);
    created := ResetRoundTripWithNewComposer(sw, rs, first);
    head := new Pass(true);
    var app := new Composer();
    app.passes := [head];
    rs.composers := [app];
    var added := new Pass(true);
    sw.SwitchPass(added, rs);
    assert app.passes == Spliced([head], added) && sw.originalPass == head && sw.originalComposer == null;
    var threw := sw.SwitchBackAndReset(rs);
    SpliceThenRestore([head], added);
    chain := app.passes;
  }

  /** Corrected: with no composer, `switchPass` then the resetting `switchBack`
      destroys the created composer once, leaves the list empty and the switcher
      clean. */
  method ResetRoundTripWithNewComposer(sw: Switcher, rs: RenderSystem, pass: Pass) returns (created: Composer)
    requires |rs.composers| == 0
    modifies sw, rs, pass
    ensures rs.composers == [] && fresh(created) && created.destroyCount == 1
    ensures sw.Clean()
  {
    sw.SwitchPass(pass, rs);
    created := rs.composers[0];
    var threw := sw.SwitchBackAndReset(rs);
    RemoveFront(created, []);
    assert [created] + [] == [created];
  }
}
