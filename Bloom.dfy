/** The bloom post-process: the scene is drawn into a full-size target, blurred
    horizontally into a half-size target, blurred vertically into a second
    half-size target, and composited with the original into the default
    framebuffer. */
module Bloom {
  import opened Optional
  import opened Gl
  import opened Framebuffers
  import Quad

  const DefaultStrength: real := 0.8
  const DefaultThreshold: real := 1.0
  const DefaultBlurSize: real := 2.0

  /** A linked shader program: its handle and the names of the uniforms it
      declares as active (the ones whose location lookup is non-null). */
  datatype Program = Program(handle: nat, active: set<UniformName>)

  /** The abstract value of a bloom renderer. */
  datatype BloomState = BloomState(
    scene: Target,
    horizontal: Target,
    vertical: Target,
    blur: Program,
    composite: Program,
    width: real,
    height: real,
    strength: real,
    threshold: real,
    blurSize: real)

  /** The scene target has the renderer's size and both blur targets half of
      it; the six textures are distinct, and each target agrees with the
      context. */
  predicate BloomValid(b: BloomState, s: GLState) {
    && TargetValid(b.scene, s) && TargetValid(b.horizontal, s) && TargetValid(b.vertical, s)
    && b.scene.size == Size(b.width, b.height)
    && b.horizontal.size == Size(b.width / 2.0, b.height / 2.0)
    && b.vertical.size == Size(b.width / 2.0, b.height / 2.0)
    && b.scene.color != b.horizontal.color && b.scene.color != b.horizontal.depth
    && b.scene.color != b.vertical.color && b.scene.color != b.vertical.depth
    && b.scene.depth != b.horizontal.color && b.scene.depth != b.horizontal.depth
    && b.scene.depth != b.vertical.color && b.scene.depth != b.vertical.depth
    && b.horizontal.color != b.vertical.color && b.horizontal.color != b.vertical.depth
    && b.horizontal.depth != b.vertical.color && b.horizontal.depth != b.vertical.depth
  }

  /** A uniform is only set when the program declares it. */
  function SetUniformIf(s: GLState, p: Program, name: UniformName, u: Uniform): GLState {
    s.(uniforms := Gate(s.uniforms, p, name, u))
  }

  /** The write a guarded uniform call makes to the uniform store. */
  function Gate(m: map<(nat, UniformName), Uniform>, p: Program, name: UniformName, u: Uniform): map<(nat, UniformName), Uniform> {
    if name in p.active then m[(p.handle, name) := u] else m
  }

  /** With p current, the guarded write is the GL uniform call when p
      declares the name and no call at all otherwise. */
  lemma SetUniformIfIsGuardedCall(s: GLState, p: Program, name: UniformName, u: Uniform)
    requires s.program == Some(p.handle)
    ensures SetUniformIf(s, p, name, u) == if name in p.active then SetUniform(s, name, u) else s
  {
  }

  /** A program that declares the uniform sees the value u. */
  predicate Shows(m: map<(nat, UniformName), Uniform>, p: Program, name: UniformName, u: Uniform) {
    name in p.active ==> (p.handle, name) in m && m[(p.handle, name)] == u
  }

  /** The texture a draw saw on a unit. */
  function PassTexture(p: Pass, unit: nat): Option<nat> {
    if unit in p.textures then p.textures[unit] else None
  }

  /** The blur uniforms: sampler on unit 0, half resolution, the given
      direction and the blur size, each where the program declares it. */
  predicate BlurUniforms(m: map<(nat, UniformName), Uniform>, b: BloomState, direction: Uniform) {
    && Shows(m, b.blur, UTexture, Int1(0))
    && Shows(m, b.blur, UResolution, Float2(b.width / 2.0, b.height / 2.0))
    && Shows(m, b.blur, UDirection, direction)
    && Shows(m, b.blur, UBlurSize, Float1(b.blurSize))
  }

  /** A draw of the quad by program into a target, through a viewport
      covering it, reading a texture on unit 0, with both flags off. */
  predicate BlurTarget(p: Pass, target: Target, program: Program, source: nat) {
    && p.target == Some(target.framebuffer)
    && p.viewport == Viewport(0.0, 0.0, target.size.width, target.size.height)
    && p.program == Some(program.handle)
    && PassTexture(p, 0) == Some(source)
    && !p.depthTest && !p.blend
    && p.count == Quad.QuadCount()
  }

  /** The composite draw into the default framebuffer at full size, the
      scene on unit 0 and the blurred image on unit 1, with both flags off. */
  predicate CompositeTarget(p: Pass, b: BloomState) {
    && p.target == None
    && p.viewport == Viewport(0.0, 0.0, b.width, b.height)
    && p.program == Some(b.composite.handle)
    && PassTexture(p, 0) == Some(b.scene.color)
    && PassTexture(p, 1) == Some(b.vertical.color)
    && !p.depthTest && !p.blend
    && p.count == Quad.QuadCount()
  }

  /** The composite uniforms: samplers on units 0 and 1 and the bloom
      parameters, each where the program declares it. */
  predicate CompositeUniforms(m: map<(nat, UniformName), Uniform>, b: BloomState) {
    && Shows(m, b.composite, UOriginalTexture, Int1(0))
    && Shows(m, b.composite, UBloomTexture, Int1(1))
    && Shows(m, b.composite, UBloomStrength, Float1(b.strength))
    && Shows(m, b.composite, UBloomThreshold, Float1(b.threshold))
  }

  /** ShaderProgram.draw: make the program current and draw the quad. */
  function DrawQuad(s: GLState, p: Program): GLState {
    DrawElements(UseProgram(s, p.handle), Quad.QuadCount())
  }

  /** beginScenePass: bind the scene target and clear color and depth. */
  function BeginScene(b: BloomState, s: GLState): GLState {
    ClearBuffers(BindTarget(b.scene, s), true, true)
  }

  /** The horizontal pass: scene texture into the horizontal target. */
  function HorizontalPass(b: BloomState, s: GLState): GLState {
    var s1 := ClearBuffers(BindTarget(b.horizontal, s), true, false);
    var s2 := BindTexture(ActiveTexture(UseProgram(s1, b.blur.handle), 0), Some(b.scene.color));
    var s3 := SetUniformIf(s2, b.blur, UTexture, Int1(0));
    var s4 := SetUniformIf(s3, b.blur, UResolution, Float2(b.width / 2.0, b.height / 2.0));
    var s5 := SetUniformIf(s4, b.blur, UDirection, Float2(1.0, 0.0));
    var s6 := SetUniformIf(s5, b.blur, UBlurSize, Float1(b.blurSize));
    DrawQuad(s6, b.blur)
  }

  /** The vertical pass: horizontal texture into the vertical target, bound
      on whatever unit is active, and the direction set on the blur program,
      which the horizontal pass left current. */
  function VerticalPass(b: BloomState, s: GLState): GLState {
    var s1 := ClearBuffers(BindTarget(b.vertical, s), true, false);
    var s2 := BindTexture(s1, Some(b.horizontal.color));
    var s3 := SetUniformIf(s2, b.blur, UDirection, Float2(0.0, 1.0));
    DrawQuad(s3, b.blur)
  }

  /** The composite pass into the default framebuffer. */
  function CompositePass(b: BloomState, s: GLState): GLState {
    var s1 := ClearBuffers(SetViewport(BindFramebuffer(s, None), Viewport(0.0, 0.0, b.width, b.height)), true, false);
    var s2 := BindTexture(ActiveTexture(UseProgram(s1, b.composite.handle), 0), Some(b.scene.color));
    var s3 := SetUniformIf(s2, b.composite, UOriginalTexture, Int1(0));
    var s4 := BindTexture(ActiveTexture(s3, 1), Some(b.vertical.color));
    var s5 := SetUniformIf(s4, b.composite, UBloomTexture, Int1(1));
    var s6 := SetUniformIf(s5, b.composite, UBloomStrength, Float1(b.strength));
    var s7 := SetUniformIf(s6, b.composite, UBloomThreshold, Float1(b.threshold));
    DrawQuad(s7, b.composite)
  }

  /** renderBloom: both flags off, the three passes, then depth test back on. */
  function RenderBloomSpec(b: BloomState, s: GLState): GLState {
    var s0 := SetCapability(SetCapability(s, DepthTest, false), Blend, false);
    SetCapability(CompositePass(b, VerticalPass(b, HorizontalPass(b, s0))), DepthTest, true)
  }

  /** resize: the scene target to (w, h), both blur targets to (w/2, h/2). */
  function ResizeBloom(b: BloomState, s: GLState, width: real, height: real): (BloomState, GLState) {
    var (scene, s1) := ResizeTarget(b.scene, s, Size(width, height));
    var (horizontal, s2) := ResizeTarget(b.horizontal, s1, Size(width / 2.0, height / 2.0));
    var (vertical, s3) := ResizeTarget(b.vertical, s2, Size(width / 2.0, height / 2.0));
    (b.(scene := scene, horizontal := horizontal, vertical := vertical, width := width, height := height), s3)
  }

  /** The scene pass leaves the scene target bound, with a full-size
      viewport, and clears its color and depth. */
  lemma BeginSceneEffect(b: BloomState, s: GLState)
    requires BloomValid(b, s)
    ensures var s' := BeginScene(b, s);
      && s'.framebuffer == Some(b.scene.framebuffer)
      && s'.viewport == Viewport(0.0, 0.0, b.width, b.height)
      && s'.log == s.log + [Clear(Some(b.scene.framebuffer), true, true)]
    ensures UnbindTarget(BeginScene(b, s)).framebuffer == None
  {
  }

  /** Entries of a prefix survive an extension of the log. */
  lemma PrefixEntry(log: seq<Event>, log': seq<Event>, k: nat)
    requires |log| <= |log'| && log'[..|log|] == log && k < |log|
    ensures log'[k] == log[k]
  {
    assert log'[..|log|][k] == log'[k];
  }

  /** Three extensions of a log by two events each: the last log starts
      with the first, and each pair of added entries is where its extension
      put it. */
  lemma ThreeExtensions(log0: seq<Event>, log1: seq<Event>, log2: seq<Event>, log3: seq<Event>)
    requires |log1| == |log0| + 2 && log1[..|log0|] == log0
    requires |log2| == |log1| + 2 && log2[..|log1|] == log1
    requires |log3| == |log2| + 2 && log3[..|log2|] == log2
    ensures var n := |log0|;
      && |log3| == n + 6 && log3[..n] == log0
      && log3[n] == log1[n] && log3[n + 1] == log1[n + 1]
      && log3[n + 2] == log2[n + 2] && log3[n + 3] == log2[n + 3]
  {
    var n := |log0|;
    PrefixEntry(log2, log3, n + 2);
    PrefixEntry(log2, log3, n + 3);
    PrefixEntry(log1, log2, n);
    PrefixEntry(log1, log2, n + 1);
    PrefixEntry(log2, log3, n);
    PrefixEntry(log2, log3, n + 1);
    assert log3[..n] == log0 by {
      assert log2[..n] == log0;
      assert log3[..n + 4][..n] == log3[..n];
    }
  }

  /** The horizontal pass clears the horizontal target and draws into it
      from the scene texture on unit 0, leaving the blur program current and
      unit 0 active. */
  lemma HorizontalLog(b: BloomState, s: GLState)
    requires !s.depthTest && !s.blend
    ensures var s' := HorizontalPass(b, s); var n := |s.log|;
      && |s'.log| == n + 2 && s'.log[..n] == s.log
      && s'.log[n] == Clear(Some(b.horizontal.framebuffer), true, false)
      && s'.log[n + 1].Draw? && s'.log[n + 1].pass.uniforms == s'.uniforms
      && BlurTarget(s'.log[n + 1].pass, b.horizontal, b.blur, b.scene.color)
      && s'.program == Some(b.blur.handle) && s'.activeUnit == 0
      && !s'.depthTest && !s'.blend
  {
  }

  /** After the horizontal pass the blur program holds the horizontal
      direction and the other blur uniforms. */
  lemma HorizontalUniforms(b: BloomState, s: GLState)
    ensures BlurUniforms(HorizontalPass(b, s).uniforms, b, Float2(1.0, 0.0))
  {
  }

  /** The vertical pass clears the vertical target and draws into it from
      the horizontal texture, bound on the unit the horizontal pass left
      active. */
  lemma VerticalLog(b: BloomState, s: GLState)
    requires !s.depthTest && !s.blend
    requires s.activeUnit == 0
    ensures var s' := VerticalPass(b, s); var n := |s.log|;
      && |s'.log| == n + 2 && s'.log[..n] == s.log
      && s'.log[n] == Clear(Some(b.vertical.framebuffer), true, false)
      && s'.log[n + 1].Draw? && s'.log[n + 1].pass.uniforms == s'.uniforms
      && BlurTarget(s'.log[n + 1].pass, b.vertical, b.blur, b.horizontal.color)
      && !s'.depthTest && !s'.blend
  {
  }

  /** The vertical pass changes only the direction among the blur uniforms. */
  lemma VerticalUniforms(b: BloomState, s: GLState)
    requires s.program == Some(b.blur.handle)
    requires BlurUniforms(s.uniforms, b, Float2(1.0, 0.0))
    ensures BlurUniforms(VerticalPass(b, s).uniforms, b, Float2(0.0, 1.0))
  {
  }

  /** The composite pass clears the default framebuffer and draws into it
      with the scene on unit 0 and the vertical texture on unit 1, and leaves
      unit 1 active and the composite program current. */
  lemma CompositeLog(b: BloomState, s: GLState)
    requires !s.depthTest && !s.blend
    ensures var s' := CompositePass(b, s); var n := |s.log|;
      && |s'.log| == n + 2 && s'.log[..n] == s.log
      && s'.log[n] == Clear(None, true, false)
      && s'.log[n + 1].Draw? && s'.log[n + 1].pass.uniforms == s'.uniforms
      && CompositeTarget(s'.log[n + 1].pass, b)
      && s'.framebuffer == None && s'.viewport == Viewport(0.0, 0.0, b.width, b.height)
      && !s'.depthTest && !s'.blend
      && s'.activeUnit == 1 && s'.program == Some(b.composite.handle)
      && BoundOn(s', 0) == Some(b.scene.color) && BoundOn(s', 1) == Some(b.vertical.color)
  {
  }

  lemma CompositeUniformsSet(b: BloomState, s: GLState)
    ensures CompositeUniforms(CompositePass(b, s).uniforms, b)
  {
  }

  /** Six events after position n, in this order: clear and blur the scene
      texture into the horizontal target; clear and blur the horizontal
      texture into the vertical target; clear the default framebuffer and
      composite the scene (unit 0) with the vertical texture (unit 1). Every
      draw runs with depth test and blending off. */
  predicate RenderEvents(log: seq<Event>, n: nat, b: BloomState) {
    && |log| == n + 6
    && log[n] == Clear(Some(b.horizontal.framebuffer), true, false)
    && log[n + 1].Draw? && BlurTarget(log[n + 1].pass, b.horizontal, b.blur, b.scene.color)
    && log[n + 2] == Clear(Some(b.vertical.framebuffer), true, false)
    && log[n + 3].Draw? && BlurTarget(log[n + 3].pass, b.vertical, b.blur, b.horizontal.color)
    && log[n + 4] == Clear(None, true, false)
    && log[n + 5].Draw? && CompositeTarget(log[n + 5].pass, b)
  }

  /** renderBloom appends exactly those six events to the log. */
  lemma RenderBloomOrder(b: BloomState, s: GLState)
    ensures RenderEvents(RenderBloomSpec(b, s).log, |s.log|, b)
    ensures RenderBloomSpec(b, s).log[..|s.log|] == s.log
  {
    var s0 := SetCapability(SetCapability(s, DepthTest, false), Blend, false);
    var s1 := HorizontalPass(b, s0);
    var s2 := VerticalPass(b, s1);
    var s3 := CompositePass(b, s2);
    HorizontalLog(b, s0);
    VerticalLog(b, s1);
    CompositeLog(b, s2);
    ThreeExtensions(s.log, s1.log, s2.log, s3.log);
  }

  /** The uniforms the three draws after position n saw: the horizontal
      blur with direction (1, 0), the vertical blur with direction (0, 1),
      both with the sampler on unit 0, the half resolution and the blur size;
      the composite with the samplers on units 0 and 1 and the bloom strength
      and threshold. */
  predicate RenderUniforms(log: seq<Event>, n: nat, b: BloomState) {
    && |log| == n + 6
    && log[n + 1].Draw? && BlurUniforms(log[n + 1].pass.uniforms, b, Float2(1.0, 0.0))
    && log[n + 3].Draw? && BlurUniforms(log[n + 3].pass.uniforms, b, Float2(0.0, 1.0))
    && log[n + 5].Draw? && CompositeUniforms(log[n + 5].pass.uniforms, b)
  }

  /** The draws renderBloom appends saw those uniforms. */
  lemma RenderBloomUniforms(b: BloomState, s: GLState)
    ensures RenderUniforms(RenderBloomSpec(b, s).log, |s.log|, b)
  {
    var s0 := SetCapability(SetCapability(s, DepthTest, false), Blend, false);
    var s1 := HorizontalPass(b, s0);
    var s2 := VerticalPass(b, s1);
    var s3 := CompositePass(b, s2);
    HorizontalLog(b, s0);
    HorizontalUniforms(b, s0);
    VerticalLog(b, s1);
    VerticalUniforms(b, s1);
    CompositeLog(b, s2);
    CompositeUniformsSet(b, s2);
    ThreeExtensions(s.log, s1.log, s2.log, s3.log);
  }

  /** After renderBloom depth test is on, blending is still off, the default
      framebuffer is bound, the viewport is the full size, the composite
      program is current, unit 1 is active and holds the vertical texture,
      and unit 0 holds the scene texture. */
  lemma RenderBloomFinal(b: BloomState, s: GLState)
    ensures var s' := RenderBloomSpec(b, s);
      && s'.depthTest && !s'.blend
      && s'.framebuffer == None && s'.viewport == Viewport(0.0, 0.0, b.width, b.height)
      && s'.activeUnit == 1 && s'.program == Some(b.composite.handle)
      && BoundOn(s', 0) == Some(b.scene.color) && BoundOn(s', 1) == Some(b.vertical.color)
  {
    var s0 := SetCapability(SetCapability(s, DepthTest, false), Blend, false);
    var s2 := VerticalPass(b, HorizontalPass(b, s0));
    BlurPassesFlags(b, s0);
    CompositeLog(b, s2);
    assert RenderBloomSpec(b, s) == SetCapability(CompositePass(b, s2), DepthTest, true);
  }

  /** The two blur passes leave depth testing and blending off. */
  lemma BlurPassesFlags(b: BloomState, s: GLState)
    requires !s.depthTest && !s.blend
    ensures var s' := VerticalPass(b, HorizontalPass(b, s)); !s'.depthTest && !s'.blend
  {
    HorizontalLog(b, s);
    VerticalLog(b, HorizontalPass(b, s));
  }

  /** The scene pass, the unbinding after it and the bloom phase bind,
      clear, set uniforms and draw, but allocate and attach nothing, so a
      valid renderer stays valid across a frame. */
  lemma FrameKeepsValid(b: BloomState, s: GLState)
    requires BloomValid(b, s)
    ensures BloomValid(b, BeginScene(b, s))
    ensures BloomValid(b, UnbindTarget(s))
    ensures BloomValid(b, RenderBloomSpec(b, s))
  {
    var s0 := SetCapability(SetCapability(s, DepthTest, false), Blend, false);
    var s1 := HorizontalPass(b, s0);
    var s2 := VerticalPass(b, s1);
    var s3 := CompositePass(b, s2);
    assert Allocated(s1) == Allocated(s);
    assert Allocated(s2) == Allocated(s1);
    assert Allocated(s3) == Allocated(s2);
    assert Allocated(RenderBloomSpec(b, s)) == Allocated(s);
  }

  /** What a context has allocated: the next handle, the texture sizes and
      the framebuffer attachments, the part of the state targets depend on. */
  function Allocated(s: GLState): (nat, map<nat, Size>, map<(nat, Attachment), nat>) {
    (s.nextHandle, s.texSize, s.attachments)
  }

  /** In a valid renderer the half resolution the blur program is given is
      the size of both blur targets. */
  lemma BlurResolutionIsTargetSize(b: BloomState, s: GLState, m: map<(nat, UniformName), Uniform>, direction: Uniform)
    requires BloomValid(b, s) && BlurUniforms(m, b, direction)
    ensures Shows(m, b.blur, UResolution, Float2(b.horizontal.size.width, b.horizontal.size.height))
    ensures Shows(m, b.blur, UResolution, Float2(b.vertical.size.width, b.vertical.size.height))
  {
  }

  /** resize cascades (w, h) to the scene target and (w/2, h/2) to the blur
      targets and keeps every handle and every other field. */
  lemma ResizeBloomShape(b: BloomState, s: GLState, width: real, height: real)
    ensures var (b', s') := ResizeBloom(b, s, width, height);
      && b'.width == width && b'.height == height
      && b'.scene == b.scene.(size := Size(width, height))
      && b'.horizontal == b.horizontal.(size := Size(width / 2.0, height / 2.0))
      && b'.vertical == b.vertical.(size := Size(width / 2.0, height / 2.0))
      && b' == b.(scene := b'.scene, horizontal := b'.horizontal, vertical := b'.vertical, width := width, height := height)
  {
  }

  /** The net effect of resize on a valid renderer: nothing when the size is
      the current one; otherwise the six textures reallocated, the active
      unit's binding null, and the new sizes recorded. */
  function ResizedBloom(b: BloomState, s: GLState, width: real, height: real): (BloomState, GLState) {
    var full := Size(width, height);
    var half := Size(width / 2.0, height / 2.0);
    if full == b.scene.size then (b, s)
    else
      (b.(scene := b.scene.(size := full), horizontal := b.horizontal.(size := half),
          vertical := b.vertical.(size := half), width := width, height := height),
       s.(textures := s.textures[s.activeUnit := None],
          texSize := s.texSize[b.scene.color := full][b.scene.depth := full]
                              [b.horizontal.color := half][b.horizontal.depth := half]
                              [b.vertical.color := half][b.vertical.depth := half]))
  }

  /** On a valid renderer the three target resizes change together: the
      scene target has the renderer's size and both blur targets half of it. */
  lemma ResizeBloomNet(b: BloomState, s: GLState, width: real, height: real)
    requires BloomValid(b, s)
    ensures ResizeBloom(b, s, width, height) == ResizedBloom(b, s, width, height)
  {
    var full := Size(width, height);
    var half := Size(width / 2.0, height / 2.0);
    if full == b.scene.size {
      assert half == b.horizontal.size;
    } else {
      assert half != b.horizontal.size;
      var u := s.activeUnit;
      assert s.textures[u := None][u := None][u := None] == s.textures[u := None];
    }
  }

  /** The net effect keeps the renderer valid and touches only texture
      bindings and sizes. */
  lemma ResizedBloomValid(b: BloomState, s: GLState, width: real, height: real)
    requires BloomValid(b, s)
    ensures var (b', s') := ResizedBloom(b, s, width, height);
      && BloomValid(b', s')
      && s' == s.(textures := s'.textures, texSize := s'.texSize)
  {
    if Size(width, height) != b.scene.size {
      var (b', s') := ResizedBloom(b, s, width, height);
      assert TargetValid(b'.scene, s');
      assert TargetValid(b'.horizontal, s');
      assert TargetValid(b'.vertical, s');
    }
  }

  /** resize keeps the renderer valid, and touches only texture bindings and
      sizes: the framebuffer binding, viewport, flags, program, uniforms,
      attachments and log are as they were. */
  lemma ResizeBloomEffect(b: BloomState, s: GLState, width: real, height: real)
    requires BloomValid(b, s)
    ensures var (b', s') := ResizeBloom(b, s, width, height);
      && BloomValid(b', s')
      && s' == s.(textures := s'.textures, texSize := s'.texSize)
  {
    ResizeBloomNet(b, s, width, height);
    ResizedBloomValid(b, s, width, height);
  }

  /** Repeating a resize with the same arguments changes nothing. */
  lemma ResizeBloomIdempotent(b: BloomState, s: GLState, width: real, height: real)
    requires BloomValid(b, s)
    ensures var (b', s') := ResizeBloom(b, s, width, height);
      ResizeBloom(b', s', width, height) == (b', s')
  {
    ResizeBloomShape(b, s, width, height);
    ResizeBloomEffect(b, s, width, height);
  }

  /** The constructor: the scene target at (w, h), then both blur targets at
      (w/2, h/2), then the blur and the composite programs, each taking the
      next handle; the bloom parameters start at their defaults. */
  function Construct(s: GLState, width: real, height: real, blurActive: set<UniformName>, compositeActive: set<UniformName>):
    (BloomState, GLState)
  {
    var (scene, s1) := Created(s, Size(width, height));
    var (horizontal, s2) := Created(s1, Size(width / 2.0, height / 2.0));
    var (vertical, s3) := Created(s2, Size(width / 2.0, height / 2.0));
    var blur := Program(s3.nextHandle, blurActive);
    var composite := Program(s3.nextHandle + 1, compositeActive);
    (BloomState(scene, horizontal, vertical, blur, composite, width, height,
                DefaultStrength, DefaultThreshold, DefaultBlurSize),
     Create(Create(s3)))
  }

  /** The three targets the constructor creates, on consecutive handles. */
  lemma ConstructTargets(s: GLState, width: real, height: real, blurActive: set<UniformName>, compositeActive: set<UniformName>)
    ensures var (b, s') := Construct(s, width, height, blurActive, compositeActive); var n := s.nextHandle;
      && b.scene == Target(n, n + 1, n + 2, Size(width, height))
      && b.horizontal == Target(n + 3, n + 4, n + 5, Size(width / 2.0, height / 2.0))
      && b.vertical == Target(n + 6, n + 7, n + 8, Size(width / 2.0, height / 2.0))
      && b.blur == Program(n + 9, blurActive) && b.composite == Program(n + 10, compositeActive)
      && s'.nextHandle == n + 11
      && s'.texSize == s.texSize[n + 1 := b.scene.size][n + 2 := b.scene.size]
                                [n + 4 := b.horizontal.size][n + 5 := b.horizontal.size]
                                [n + 7 := b.vertical.size][n + 8 := b.vertical.size]
      && s'.attachments == s.attachments[(n, ColorAttachment0) := n + 1][(n, DepthAttachment) := n + 2]
                                [(n + 3, ColorAttachment0) := n + 4][(n + 3, DepthAttachment) := n + 5]
                                [(n + 6, ColorAttachment0) := n + 7][(n + 6, DepthAttachment) := n + 8]
  {
  }

  /** A constructed renderer is valid and its two programs have distinct
      handles. */
  lemma ConstructValid(s: GLState, width: real, height: real, blurActive: set<UniformName>, compositeActive: set<UniformName>)
    ensures var (b, s') := Construct(s, width, height, blurActive, compositeActive);
      BloomValid(b, s') && b.blur.handle != b.composite.handle
  {
    ConstructTargets(s, width, height, blurActive, compositeActive);
  }

  /** The constructor sets the size, the default parameters and the given
      active uniforms, and leaves the default framebuffer bound with the
      viewport, flags, program, uniforms and log as they were. */
  lemma ConstructEffect(s: GLState, width: real, height: real, blurActive: set<UniformName>, compositeActive: set<UniformName>)
    ensures var (b, s') := Construct(s, width, height, blurActive, compositeActive);
      && b.width == width && b.height == height
      && b.scene.size == Size(width, height)
      && b.horizontal.size == Size(width / 2.0, height / 2.0) && b.vertical.size == Size(width / 2.0, height / 2.0)
      && b.strength == DefaultStrength && b.threshold == DefaultThreshold && b.blurSize == DefaultBlurSize
      && b.blur.active == blurActive && b.composite.active == compositeActive
      && s'.framebuffer == None && s'.viewport == s.viewport && s'.log == s.log
      && s'.depthTest == s.depthTest && s'.blend == s.blend
      && s'.program == s.program && s'.uniforms == s.uniforms
  {
  }

  /** BloomRenderer: three render targets over one shared context, two
      programs and the quad's draw count. */
  class BloomRenderer {
    const gl: Context
    const scene: FramebufferManager
    const horizontal: FramebufferManager
    const vertical: FramebufferManager
    const blur: Program
    const composite: Program
    var width: real
    var height: real
    var bloomStrength: real
    var bloomThreshold: real
    var blurSize: real

    function Abstract(): BloomState
      reads this, scene, horizontal, vertical
    {
      BloomState(scene.Abstract(), horizontal.Abstract(), vertical.Abstract(), blur, composite,
                 width, height, bloomStrength, bloomThreshold, blurSize)
    }

    /** The three targets share the renderer's context and are distinct. */
    ghost predicate Linked()
      reads this
    {
      && scene.gl == gl && horizontal.gl == gl && vertical.gl == gl
      && scene != horizontal && scene != vertical && horizontal != vertical
    }

    ghost predicate Valid()
      reads this, scene, horizontal, vertical, gl
    {
      Linked() && BloomValid(Abstract(), gl.st)
    }

    /** The scene target at (w, h), both blur targets at (w/2, h/2), the
        default bloom parameters, and two programs whose active uniforms are
        given (their compilation is not modelled; each takes the next
        handle). */
    constructor (gl: Context, width: real, height: real, blurActive: set<UniformName>, compositeActive: set<UniformName>)
      modifies gl
      ensures this.gl == gl && Linked()
      ensures fresh(scene) && fresh(horizontal) && fresh(vertical)
      ensures (Abstract(), gl.st) == Construct(old(gl.st), width, height, blurActive, compositeActive)
      ensures Valid()
    {
      ghost var s := gl.st;
      ghost var (t1, s1) := Created(s, Size(width, height));
      ghost var (t2, s2) := Created(s1, Size(width / 2.0, height / 2.0));
      ghost var (t3, s3) := Created(s2, Size(width / 2.0, height / 2.0));
      var sc := new FramebufferManager(gl, width, height);
      var hz := new FramebufferManager(gl, width / 2.0, height / 2.0);
      var vt := new FramebufferManager(gl, width / 2.0, height / 2.0);
      assert sc.Abstract() == t1 && hz.Abstract() == t2 && vt.Abstract() == t3 && gl.st == s3;
      var blurHandle := gl.CreateHandle();
      var compositeHandle := gl.CreateHandle();
      this.gl := gl;
      this.scene := sc;
      this.horizontal := hz;
      this.vertical := vt;
      this.blur := Program(blurHandle, blurActive);
      this.composite := Program(compositeHandle, compositeActive);
      this.width := width;
      this.height := height;
      this.bloomStrength := DefaultStrength;
      this.bloomThreshold := DefaultThreshold;
      this.blurSize := DefaultBlurSize;
      new;
      assert Abstract() == BloomState(t1, t2, t3, blur, composite, width, height,
                                      DefaultStrength, DefaultThreshold, DefaultBlurSize);
      ConstructValid(s, width, height, blurActive, compositeActive);
    }

    method BeginScenePass()
      requires Linked()
      modifies gl
      ensures gl.st == BeginScene(Abstract(), old(gl.st))
      ensures old(Valid()) ==> Valid()
    {
      ghost var s := gl.st;
      scene.Bind();
      gl.ClearCall(true, true);
      if BloomValid(Abstract(), s) {
        FrameKeepsValid(Abstract(), s);
      }
    }

    method EndScenePass()
      requires Linked()
      modifies gl
      ensures gl.st == UnbindTarget(old(gl.st))
      ensures old(Valid()) ==> Valid()
    {
      ghost var s := gl.st;
      scene.Unbind();
      if BloomValid(Abstract(), s) {
        FrameKeepsValid(Abstract(), s);
      }
    }

    /** Sets a uniform of p when p declares it. */
    method UniformIf(p: Program, name: UniformName, u: Uniform)
      requires gl.st.program == Some(p.handle)
      modifies gl
      ensures gl.st == SetUniformIf(old(gl.st), p, name, u)
    {
      SetUniformIfIsGuardedCall(gl.st, p, name, u);
      if name in p.active {
        gl.Uniform(name, u);
      }
    }

    method DrawQuadCall(p: Program)
      modifies gl
      ensures gl.st == DrawQuad(old(gl.st), p)
    {
      gl.UseProgramCall(p.handle);
      gl.DrawElementsCall(Quad.QuadCount());
    }

    /** renderBloom: the three passes between the flag changes. */
    method RenderBloom()
      requires Linked()
      modifies gl
      ensures gl.st == RenderBloomSpec(Abstract(), old(gl.st))
      ensures old(Valid()) ==> Valid()
    {
      ghost var s := gl.st;
      gl.Disable(DepthTest);
      gl.Disable(Blend);
      HorizontalBlur();
      VerticalBlur();
      CompositeToScreen();
      gl.Enable(DepthTest);
      assert gl.st == RenderBloomSpec(Abstract(), s);
      if BloomValid(Abstract(), s) {
        FrameKeepsValid(Abstract(), s);
      }
    }

    /** Horizontal blur pass: the scene texture into the horizontal target. */
    method HorizontalBlur()
      requires Linked()
      modifies gl
      ensures gl.st == HorizontalPass(old(Abstract()), old(gl.st))
      ensures gl.st.program == Some(blur.handle)
    {
      ghost var b := Abstract();
      ghost var s := gl.st;
      horizontal.Bind();
      gl.ClearCall(true, false);
      gl.UseProgramCall(blur.handle);
      gl.ActiveTextureCall(0);
      var sceneTexture := scene.GetColorTexture();
      gl.BindTextureCall(Some(sceneTexture));
      assert gl.st == BindTexture(ActiveTexture(UseProgram(ClearBuffers(BindTarget(b.horizontal, s), true, false), b.blur.handle), 0), Some(b.scene.color));
      UniformIf(blur, UTexture, Int1(0));
      UniformIf(blur, UResolution, Float2(width / 2.0, height / 2.0));
      UniformIf(blur, UDirection, Float2(1.0, 0.0));
      UniformIf(blur, UBlurSize, Float1(blurSize));
      DrawQuadCall(blur);
      assert Abstract() == b;
    }

    /** Vertical blur pass: the horizontal texture into the vertical target. */
    method VerticalBlur()
      requires Linked() && gl.st.program == Some(blur.handle)
      modifies gl
      ensures gl.st == VerticalPass(Abstract(), old(gl.st))
    {
      vertical.Bind();
      gl.ClearCall(true, false);
      var horizontalTexture := horizontal.GetColorTexture();
      gl.BindTextureCall(Some(horizontalTexture));
      UniformIf(blur, UDirection, Float2(0.0, 1.0));
      DrawQuadCall(blur);
    }

    /** Composite pass: scene and blurred image into the default framebuffer. */
    method CompositeToScreen()
      requires Linked()
      modifies gl
      ensures gl.st == CompositePass(Abstract(), old(gl.st))
    {
      gl.BindFramebufferCall(None);
      gl.ViewportCall(Viewport(0.0, 0.0, width, height));
      gl.ClearCall(true, false);
      gl.UseProgramCall(composite.handle);
      gl.ActiveTextureCall(0);
      var sceneTexture := scene.GetColorTexture();
      gl.BindTextureCall(Some(sceneTexture));
      UniformIf(composite, UOriginalTexture, Int1(0));
      gl.ActiveTextureCall(1);
      var verticalTexture := vertical.GetColorTexture();
      gl.BindTextureCall(Some(verticalTexture));
      UniformIf(composite, UBloomTexture, Int1(1));
      UniformIf(composite, UBloomStrength, Float1(bloomStrength));
      UniformIf(composite, UBloomThreshold, Float1(bloomThreshold));
      DrawQuadCall(composite);
    }

    method Resize(width: real, height: real)
      requires Valid()
      modifies this, scene, horizontal, vertical, gl
      ensures (Abstract(), gl.st) == ResizeBloom(old(Abstract()), old(gl.st), width, height)
      ensures Valid()
    {
      ResizeBloomEffect(Abstract(), gl.st, width, height);
      this.width := width;
      this.height := height;
      scene.Resize(width, height);
      horizontal.Resize(width / 2.0, height / 2.0);
      vertical.Resize(width / 2.0, height / 2.0);
    }
  }
}
