/** The part of the WebGL2 context that the render targets and the bloom
    pass touch, as an abstract state record: the bound framebuffer, the
    viewport, the two enable flags, the active texture unit and the 2D
    texture bound on each unit, the current program and the uniform values
    set on each program, the size and attachments of textures and
    framebuffers, a handle counter, and the log of clears and draws. Each
    GL call is a function on that record; the Context class holds the
    record and performs the calls in place. */
module Gl {
  import opened Optional

  datatype Viewport = Viewport(x: real, y: real, width: real, height: real)

  datatype Size = Size(width: real, height: real)

  /** The two capabilities the demo toggles. */
  datatype Capability = DepthTest | Blend

  datatype Attachment = ColorAttachment0 | DepthAttachment

  /** The uniforms the post-process sets, by name. */
  datatype UniformName =
    | UTexture | UResolution | UDirection | UBlurSize
    | UOriginalTexture | UBloomTexture | UBloomStrength | UBloomThreshold

  /** A uniform value: uniform1i, uniform1f and uniform2f. */
  datatype Uniform = Int1(i: int) | Float1(f: real) | Float2(x: real, y: real)

  /** What one draw call saw: where it wrote, through which viewport, with
      which program, textures on each unit, uniform values of every program
      and enable flags. */
  datatype Pass = Pass(
    target: Option<nat>,
    viewport: Viewport,
    program: Option<nat>,
    textures: map<nat, Option<nat>>,
    uniforms: map<(nat, UniformName), Uniform>,
    depthTest: bool,
    blend: bool,
    count: nat)

  datatype Event = Clear(target: Option<nat>, color: bool, depth: bool) | Draw(pass: Pass)

  datatype GLState = GLState(
    framebuffer: Option<nat>,
    viewport: Viewport,
    depthTest: bool,
    blend: bool,
    activeUnit: nat,
    textures: map<nat, Option<nat>>,
    program: Option<nat>,
    uniforms: map<(nat, UniformName), Uniform>,
    texSize: map<nat, Size>,
    attachments: map<(nat, Attachment), nat>,
    nextHandle: nat,
    log: seq<Event>)

  /** A fresh context: nothing bound, both flags off, unit 0 active. */
  function InitialState(viewport: Viewport): GLState {
    GLState(None, viewport, false, false, 0, map[], None, map[], map[], map[], 0, [])
  }

  /** The texture bound on a unit (null when nothing was ever bound there). */
  function BoundOn(s: GLState, unit: nat): Option<nat> {
    if unit in s.textures then s.textures[unit] else None
  }

  /** The texture bound on the active unit. */
  function Bound(s: GLState): Option<nat> {
    BoundOn(s, s.activeUnit)
  }

  function BindFramebuffer(s: GLState, fb: Option<nat>): GLState {
    s.(framebuffer := fb)
  }

  function SetViewport(s: GLState, v: Viewport): GLState {
    s.(viewport := v)
  }

  function SetCapability(s: GLState, cap: Capability, on: bool): GLState {
    match cap
    case DepthTest => s.(depthTest := on)
    case Blend => s.(blend := on)
  }

  function ActiveTexture(s: GLState, unit: nat): GLState {
    s.(activeUnit := unit)
  }

  /** bindTexture(TEXTURE_2D, t) binds on the active unit. */
  function BindTexture(s: GLState, t: Option<nat>): GLState {
    s.(textures := s.textures[s.activeUnit := t])
  }

  /** texImage2D reallocates the texture bound on the active unit at the
      given size; with nothing bound it has no effect on any texture. */
  function TexImage2D(s: GLState, size: Size): GLState {
    s.(texSize := if Bound(s).Some? then s.texSize[Bound(s).value := size] else s.texSize)
  }

  /** framebufferTexture2D attaches a texture to the bound framebuffer. */
  function FramebufferTexture2D(s: GLState, a: Attachment, t: nat): GLState {
    s.(attachments := if s.framebuffer.Some? then s.attachments[(s.framebuffer.value, a) := t] else s.attachments)
  }

  /** createFramebuffer / createTexture hand out the next unused handle. */
  function Create(s: GLState): GLState {
    s.(nextHandle := s.nextHandle + 1)
  }

  function UseProgram(s: GLState, p: nat): GLState {
    s.(program := Some(p))
  }

  /** Setting a uniform writes it into the current program's values. */
  function SetUniform(s: GLState, name: UniformName, u: Uniform): GLState {
    s.(uniforms := if s.program.Some? then s.uniforms[(s.program.value, name) := u] else s.uniforms)
  }

  function ClearBuffers(s: GLState, color: bool, depth: bool): GLState {
    s.(log := s.log + [Clear(s.framebuffer, color, depth)])
  }

  /** The pass a draw call made in state s. */
  function Snapshot(s: GLState, count: nat): Pass {
    Pass(s.framebuffer, s.viewport, s.program, s.textures, s.uniforms, s.depthTest, s.blend, count)
  }

  function DrawElements(s: GLState, count: nat): GLState {
    s.(log := s.log + [Draw(Snapshot(s, count))])
  }

  /** Binding a texture on the active unit leaves every other unit alone. */
  lemma BindTextureOtherUnits(s: GLState, t: Option<nat>, unit: nat)
    ensures BoundOn(BindTexture(s, t), unit) == if unit == s.activeUnit then t else BoundOn(s, unit)
  {
  }

  /** A uniform write is seen by the current program only, under that name
      only; with no current program it has no effect. */
  lemma SetUniformScoped(s: GLState, name: UniformName, u: Uniform, p: nat, n: UniformName)
    ensures var m := SetUniform(s, name, u).uniforms;
      if s.program == Some(p) && n == name then (p, n) in m && m[(p, n)] == u
      else ((p, n) in m <==> (p, n) in s.uniforms) && ((p, n) in s.uniforms ==> m[(p, n)] == s.uniforms[(p, n)])
  {
  }

  /** The context, updated in place by each call. */
  class Context {
    var st: GLState

    constructor (viewport: Viewport)
      ensures st == InitialState(viewport)
    {
      st := InitialState(viewport);
    }

    method BindFramebufferCall(fb: Option<nat>)
      modifies this
      ensures st == BindFramebuffer(old(st), fb)
    {
      st := BindFramebuffer(st, fb);
    }

    method ViewportCall(v: Viewport)
      modifies this
      ensures st == SetViewport(old(st), v)
    {
      st := SetViewport(st, v);
    }

    method Enable(cap: Capability)
      modifies this
      ensures st == SetCapability(old(st), cap, true)
    {
      st := SetCapability(st, cap, true);
    }

    method Disable(cap: Capability)
      modifies this
      ensures st == SetCapability(old(st), cap, false)
    {
      st := SetCapability(st, cap, false);
    }

    method ActiveTextureCall(unit: nat)
      modifies this
      ensures st == ActiveTexture(old(st), unit)
    {
      st := ActiveTexture(st, unit);
    }

    method BindTextureCall(t: Option<nat>)
      modifies this
      ensures st == BindTexture(old(st), t)
    {
      st := BindTexture(st, t);
    }

    method TexImage2DCall(size: Size)
      modifies this
      ensures st == TexImage2D(old(st), size)
    {
      st := TexImage2D(st, size);
    }

    method FramebufferTexture2DCall(a: Attachment, t: nat)
      modifies this
      ensures st == FramebufferTexture2D(old(st), a, t)
    {
      st := FramebufferTexture2D(st, a, t);
    }

    method CreateHandle() returns (h: nat)
      modifies this
      ensures h == old(st.nextHandle) && st == Create(old(st))
    {
      h := st.nextHandle;
      st := Create(st);
    }

    method UseProgramCall(p: nat)
      modifies this
      ensures st == UseProgram(old(st), p)
    {
      st := UseProgram(st, p);
    }

    method Uniform(name: UniformName, u: Uniform)
      modifies this
      ensures st == SetUniform(old(st), name, u)
    {
      st := SetUniform(st, name, u);
    }

    method ClearCall(color: bool, depth: bool)
      modifies this
      ensures st == ClearBuffers(old(st), color, depth)
    {
      st := ClearBuffers(st, color, depth);
    }

    method DrawElementsCall(count: nat)
      modifies this
      ensures st == DrawElements(old(st), count)
    {
      st := DrawElements(st, count);
    }
  }
}
