/** An offscreen render target: a framebuffer with a color texture and a
    depth texture of the same size, created once and reallocated on resize. */
module Framebuffers {
  import opened Optional
  import opened Gl

  /** The abstract value of a render target: its three GL handles and its size. */
  datatype Target = Target(framebuffer: nat, color: nat, depth: nat, size: Size)

  /** A target agrees with the context: its handles were handed out and the
      two textures are distinct, both have the target's size and both are
      attached to its framebuffer. */
  predicate TargetValid(t: Target, s: GLState) {
    && t.framebuffer < s.nextHandle && t.color < s.nextHandle && t.depth < s.nextHandle
    && t.color != t.depth
    && t.color in s.texSize && s.texSize[t.color] == t.size
    && t.depth in s.texSize && s.texSize[t.depth] == t.size
    && (t.framebuffer, ColorAttachment0) in s.attachments && s.attachments[(t.framebuffer, ColorAttachment0)] == t.color
    && (t.framebuffer, DepthAttachment) in s.attachments && s.attachments[(t.framebuffer, DepthAttachment)] == t.depth
  }

  /** createFramebuffer, call by call: create and bind the framebuffer,
      create, bind and allocate the color texture and then the depth
      texture, attach both, and unbind the texture and the framebuffer. */
  function CreateSteps(s: GLState, size: Size): (Target, GLState)
  {
    var fb := s.nextHandle;
    var s1 := BindFramebuffer(Create(s), Some(fb));
    var color := s1.nextHandle;
    var s2 := TexImage2D(BindTexture(Create(s1), Some(color)), size);
    var depth := s2.nextHandle;
    var s3 := TexImage2D(BindTexture(Create(s2), Some(depth)), size);
    var s4 := FramebufferTexture2D(FramebufferTexture2D(s3, ColorAttachment0, color), DepthAttachment, depth);
    (Target(fb, color, depth, size), BindFramebuffer(BindTexture(s4, None), None))
  }

  /** The net effect of createFramebuffer: three new handles, both textures
      of the given size and attached, the texture binding of the active unit
      and the framebuffer binding null. */
  function Created(s: GLState, size: Size): (Target, GLState) {
    var n := s.nextHandle;
    (Target(n, n + 1, n + 2, size),
     s.(framebuffer := None,
        textures := s.textures[s.activeUnit := None],
        texSize := s.texSize[n + 1 := size][n + 2 := size],
        attachments := s.attachments[(n, ColorAttachment0) := n + 1][(n, DepthAttachment) := n + 2],
        nextHandle := n + 3))
  }

  /** The call sequence has exactly that net effect. */
  lemma CreateStepsNet(s: GLState, size: Size)
    ensures CreateSteps(s, size) == Created(s, size)
  {
    var u := s.activeUnit;
    var n := s.nextHandle;
    assert s.textures[u := Some(n + 1)][u := Some(n + 2)][u := None] == s.textures[u := None];
  }

  /** What createFramebuffer establishes and keeps: a valid target on three
      fresh handles, both bindings null, every other unit's texture, every
      earlier texture's size and every earlier framebuffer's attachments as
      they were. */
  lemma CreatedEffect(s: GLState, size: Size)
    ensures var (t, s') := Created(s, size);
      && t == Target(s.nextHandle, s.nextHandle + 1, s.nextHandle + 2, size)
      && TargetValid(t, s')
      && s'.framebuffer == None && Bound(s') == None
      && s'.nextHandle == s.nextHandle + 3
      && (forall u :: u != s.activeUnit ==> BoundOn(s', u) == BoundOn(s, u))
      && (forall h :: h in s.texSize && h < s.nextHandle ==> h in s'.texSize && s'.texSize[h] == s.texSize[h])
      && (forall k :: k in s.attachments && k.0 < s.nextHandle ==> k in s'.attachments && s'.attachments[k] == s.attachments[k])
  {
  }

  /** bind(): this framebuffer becomes current, with a viewport covering it. */
  function BindTarget(t: Target, s: GLState): GLState {
    SetViewport(BindFramebuffer(s, Some(t.framebuffer)), Viewport(0.0, 0.0, t.size.width, t.size.height))
  }

  /** unbind(): the default framebuffer becomes current; the viewport stays. */
  function UnbindTarget(s: GLState): GLState {
    BindFramebuffer(s, None)
  }

  /** resize(w, h), call by call: nothing at all when the size is the
      current one; otherwise bind and reallocate the color texture, then the
      depth texture, on the active unit, and unbind. */
  function ResizeSteps(t: Target, s: GLState, size: Size): (Target, GLState) {
    if t.size == size then (t, s)
    else
      var s1 := TexImage2D(BindTexture(s, Some(t.color)), size);
      var s2 := TexImage2D(BindTexture(s1, Some(t.depth)), size);
      (t.(size := size), BindTexture(s2, None))
  }

  /** The net effect of resize. */
  function ResizeTarget(t: Target, s: GLState, size: Size): (Target, GLState) {
    if t.size == size then (t, s)
    else
      (t.(size := size),
       s.(textures := s.textures[s.activeUnit := None], texSize := s.texSize[t.color := size][t.depth := size]))
  }

  /** The call sequence has exactly that net effect. */
  lemma ResizeStepsNet(t: Target, s: GLState, size: Size)
    ensures ResizeSteps(t, s, size) == ResizeTarget(t, s, size)
  {
    var u := s.activeUnit;
    assert s.textures[u := Some(t.color)][u := Some(t.depth)][u := None] == s.textures[u := None];
  }

  /** What resize to a new size does and keeps: same handles, both textures
      at the new size and every other texture's size as it was, the active
      unit's binding null and every other unit's as it was; the bindings of
      framebuffer and viewport, the flags, the program and the uniforms, the
      attachments and the log are untouched. */
  lemma ResizeEffect(t: Target, s: GLState, size: Size)
    requires TargetValid(t, s)
    ensures var (t', s') := ResizeTarget(t, s, size);
      && t'.framebuffer == t.framebuffer && t'.color == t.color && t'.depth == t.depth
      && t'.size == size
      && TargetValid(t', s')
      && (t.size != size ==> Bound(s') == None)
      && (forall u :: u != s.activeUnit ==> BoundOn(s', u) == BoundOn(s, u))
      && (forall h :: h in s.texSize && h != t.color && h != t.depth ==> h in s'.texSize && s'.texSize[h] == s.texSize[h])
      && s' == s.(textures := s'.textures, texSize := s'.texSize)
  {
  }

  /** Resizing to the current size changes nothing, and so a second resize
      to the same size after a first changes nothing either. */
  lemma ResizeIdempotent(t: Target, s: GLState, size: Size)
    ensures t.size == size ==> ResizeTarget(t, s, size) == (t, s)
    ensures var (t', s') := ResizeTarget(t, s, size); ResizeTarget(t', s', size) == (t', s')
  {
  }

  /** After bind the target's framebuffer is current and the viewport is
      (0, 0, width, height); after an unbind the default framebuffer is
      current and the viewport bind set is still there. */
  lemma BindUnbind(t: Target, s: GLState)
    ensures BindTarget(t, s).framebuffer == Some(t.framebuffer)
    ensures BindTarget(t, s).viewport == Viewport(0.0, 0.0, t.size.width, t.size.height)
    ensures UnbindTarget(BindTarget(t, s)).framebuffer == None
    ensures UnbindTarget(BindTarget(t, s)).viewport == BindTarget(t, s).viewport
    ensures UnbindTarget(s) == s.(framebuffer := None)
  {
  }

  /** Resizing one target keeps valid every other target whose textures
      are not its own. */
  lemma ResizeKeepsOthers(t: Target, u: Target, s: GLState, size: Size)
    requires TargetValid(t, s) && TargetValid(u, s)
    requires u.color != t.color && u.color != t.depth && u.depth != t.color && u.depth != t.depth
    ensures TargetValid(u, ResizeTarget(t, s, size).1)
  {
    ResizeEffect(t, s, size);
  }

  /** Creating a target keeps valid every target created before it. */
  lemma CreatedKeepsOthers(u: Target, s: GLState, size: Size)
    requires TargetValid(u, s)
    ensures TargetValid(u, Created(s, size).1)
    ensures u.color != Created(s, size).0.color && u.color != Created(s, size).0.depth
    ensures u.depth != Created(s, size).0.color && u.depth != Created(s, size).0.depth
  {
    CreatedEffect(s, size);
  }

  /** FramebufferManager: the render target, holding the shared context. */
  class FramebufferManager {
    const gl: Context
    var framebuffer: nat
    var colorTexture: nat
    var depthTexture: nat
    var width: real
    var height: real

    function Abstract(): Target
      reads this
    {
      Target(framebuffer, colorTexture, depthTexture, Size(width, height))
    }

    ghost predicate Valid()
      reads this, gl
    {
      TargetValid(Abstract(), gl.st)
    }

    /** Records the size, then creates the framebuffer and its textures. */
    constructor (gl: Context, width: real, height: real)
      modifies gl
      ensures this.gl == gl && this.width == width && this.height == height
      ensures (Abstract(), gl.st) == Created(old(gl.st), Size(width, height))
    {
      this.gl := gl;
      this.width := width;
      this.height := height;
      new;
      CreateFramebuffer();
    }

    method CreateFramebuffer()
      modifies this, gl
      ensures width == old(width) && height == old(height)
      ensures (Abstract(), gl.st) == Created(old(gl.st), Size(width, height))
    {
      CreateStepsNet(gl.st, Size(width, height));
      framebuffer := gl.CreateHandle();
      gl.BindFramebufferCall(Some(framebuffer));
      colorTexture := gl.CreateHandle();
      gl.BindTextureCall(Some(colorTexture));
      gl.TexImage2DCall(Size(width, height));
      depthTexture := gl.CreateHandle();
      gl.BindTextureCall(Some(depthTexture));
      gl.TexImage2DCall(Size(width, height));
      gl.FramebufferTexture2DCall(ColorAttachment0, colorTexture);
      gl.FramebufferTexture2DCall(DepthAttachment, depthTexture);
      gl.BindTextureCall(None);
      gl.BindFramebufferCall(None);
    }

    method Bind()
      modifies gl
      ensures gl.st == BindTarget(Abstract(), old(gl.st))
    {
      gl.BindFramebufferCall(Some(framebuffer));
      gl.ViewportCall(Viewport(0.0, 0.0, width, height));
    }

    method Unbind()
      modifies gl
      ensures gl.st == UnbindTarget(old(gl.st))
    {
      gl.BindFramebufferCall(None);
    }

    method GetColorTexture() returns (t: nat)
      ensures t == Abstract().color
    {
      t := colorTexture;
    }

    method Resize(width: real, height: real)
      modifies this, gl
      ensures (Abstract(), gl.st) == ResizeTarget(old(Abstract()), old(gl.st), Size(width, height))
    {
      ResizeStepsNet(Abstract(), gl.st, Size(width, height));
      if this.width == width && this.height == height {
        return;
      }
      this.width := width;
      this.height := height;
      gl.BindTextureCall(Some(colorTexture));
      gl.TexImage2DCall(Size(this.width, this.height));
      gl.BindTextureCall(Some(depthTexture));
      gl.TexImage2DCall(Size(this.width, this.height));
      gl.BindTextureCall(None);
    }
  }
}
