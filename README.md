# Fireball demo: tessellation, particle pool and bloom pipeline

This project models the parts of a WebGL fireball demo that carry logic. They are:

- **the icosphere tessellation.** This is a 12-vertex, 20-face icosahedron. Each round splits every triangle into four, and the midpoint of each edge is shared through a map keyed on the unordered edge. The result is packed into position, normal and index arrays.
- **the meteor particle pool.** This is a flat buffer of eight numbers per meteor: start x, start y, velocity x, velocity y, lifetime, age, size and brightness. `resetMeteor` overwrites one meteor. `updateTime` ages every meteor and recycles the ones that expire. `setParams` merges parameters and reallocates only under one condition.
- **the render targets.** A `FramebufferManager` is a framebuffer with a color texture and a depth texture. It is created once, bound and unbound, and resized.
- **the bloom post-process.**
  - The scene pass draws into a full-size target.
  - A horizontal blur draws into a half-size target.
  - A vertical blur draws into a second half-size target.
  - A composite pass draws into the default framebuffer.
  - The renderer also resizes all three targets together.
- **the fullscreen quad.** This is constant geometry that meets the same well-formedness predicate as the icosphere.

The WebGL2 context is an abstract state record (module `Gl`). It holds:

- the bound framebuffer and the viewport;
- the depth-test and blend flags;
- the active texture unit and the 2D texture bound on each unit;
- the current program and the uniform values of each program;
- the sizes and attachments of textures and framebuffers;
- a handle counter;
- a log of clears and draws, where each draw records everything it saw.

Each GL call is a function on that record. The `Context` class holds the record and performs the calls in place. The classes `FramebufferManager`, `BloomRenderer`, `MeteorBackground` and `Icosphere` are Dafny classes with the source's fields. Each method is proved against a specification function on values, and the properties are lemmas about those functions.

Modules:

- `Mesh`: points, triangles, unordered edges, the flat index layout and the well-formedness of packed vertex arrays.
- `Icosahedron`: the base mesh and its 30 edges.
- `Icospheres`: the subdivision and the packing.
- `IcosphereCounts`: the vertex, edge and face counts after k rounds.
- `Quad`: the fullscreen quad.
- `Gl`: the context.
- `Framebuffers`: the render targets.
- `Bloom`: the post-process.
- `Meteors`: the particle pool.
- `Optional`: the `Option` type.

`renderBloom` disables depth testing and blending (src/rendering/gl/BloomRenderer.ts:65-66) and re-enables only depth testing (src/rendering/gl/BloomRenderer.ts:135). The frame loop turns blending back on itself before its blended draws (src/main.ts:264, src/main.ts:280). `RenderBloomFinal` proves that blending is still off when `renderBloom` returns.

## Model

| member | source | states |
|---|---|---|
| Mesh.EdgeKey | src/geometry/Icosphere.ts:71 | The key of edge (i, j) is (min, max): its first endpoint is the smaller one, and it holds i and j in some order. |
| Mesh.FlattenLayout | src/geometry/Icosphere.ts:119-122 | The index list has 3 entries per triangle, and entry k is corner k mod 3 of triangle k / 3. |
| Mesh.FlattenBelow | src/geometry/Icosphere.ts:119-124 | Triangles whose corners are below n flatten to indices that are all below n. |
| Mesh.EdgesOfSound | src/geometry/Icosphere.ts:88-98 | Every edge in the edge set of a triangle list is an edge of one of its triangles. |
| Mesh.EdgesOfMember | src/geometry/Icosphere.ts:88-98 | The three edges of any triangle of the list are in the list's edge set. |
| Mesh.EdgesOfCharacter | src/geometry/Icosphere.ts:88-98 | An edge is in the edge set exactly when it is an edge of some triangle of the list (both directions). |
| Mesh.EdgesOfAppend | src/geometry/Icosphere.ts:88-98 | The edge set of two concatenated triangle lists is the union of their edge sets. |
| Mesh.ElementsCharacter | src/geometry/Icosphere.ts:58-63 | The set of a listed edge sequence has exactly the members of the sequence. |
| Mesh.SortedElements | src/geometry/Icosphere.ts:58-63 | A strictly increasing edge list has as many distinct edges as entries, and none below its first. |
| Icosahedron.BaseMesh | src/geometry/Icosphere.ts:40-63 | The base mesh has 12 vertices and 20 triangles, and every base index is below 12. |
| Icosahedron.BaseEdgeListSorted | src/geometry/Icosphere.ts:58-63 | The listed 30 edges of the icosahedron are strictly increasing. |
| Icosahedron.BaseEdgeCount | src/geometry/Icosphere.ts:58-63 | The icosahedron has exactly 30 distinct edges. |
| Icosahedron.BaseSimple | src/geometry/Icosphere.ts:58-63 | Every base face has three distinct corners, and no two base faces have the same corners. |
| Icosahedron.BaseEdgesOf | src/geometry/Icosphere.ts:58-63 | The distinct unordered edges of the 20 base faces are exactly those 30 edges. |
| Icospheres.Midpoint | src/geometry/Icosphere.ts:70-86 | getMidpointIndex keeps the old vertices as a prefix and adds at most one vertex. The new map adds only the edge's key and keeps every old entry. The index returned is what the map now holds for the edge. |
| Icospheres.MidpointSymmetric | src/geometry/Icosphere.ts:70-75 | getMidpointIndex(i, j) and getMidpointIndex(j, i) give the same result: same index, same vertices, same map. |
| Icospheres.MidpointRepeat | src/geometry/Icosphere.ts:73-75 | A repeated call for the same edge, in either order, returns the cached index and adds no vertex and no key. |
| Icospheres.MidpointStep | src/geometry/Icosphere.ts:70-86 | A lookup of an edge between old vertices keeps the round invariant. The invariant is: one new vertex per key, appended after the old vertices, distinct indices for distinct keys, and each new vertex the normalised midpoint of its edge. |
| Icospheres.ChildrenStable | src/geometry/Icosphere.ts:89-97 | The children of a triangle do not change when the midpoint map only grows. |
| Icospheres.SplitTriangle | src/geometry/Icosphere.ts:88-98 | Splitting one parent keeps the old vertices and map entries and adds the parent's three edges to the map. It appends exactly the four children [v1,a,c], [v2,b,a], [v3,c,b], [a,b,c]. |
| Icospheres.SplitStep | src/geometry/Icosphere.ts:88-98 | Splitting a parent whose corners are old vertices keeps the round invariant. |
| Icospheres.SplitFrom | src/geometry/Icosphere.ts:66-101 | A round starts from an empty map. It keeps the old vertices as a prefix, ends with a map whose keys are exactly the distinct edges of the parents, and emits 4 triangles per parent. |
| Icospheres.RoundCache | src/geometry/Icosphere.ts:68-98 | Throughout a round the midpoint map and the vertex list keep the round invariant. |
| Icospheres.ChildrenOfStable | src/geometry/Icosphere.ts:88-98 | The children of a parent list do not change when the map only grows. |
| Icospheres.ChildrenOfLayout | src/geometry/Icosphere.ts:88-98 | Parent i has its four children at positions 4i to 4i+3. |
| Icospheres.ChildrenOfBelow | src/geometry/Icosphere.ts:82-84 | Children built from in-range parents and an in-range map have every corner in range. |
| Icospheres.RoundChildren | src/geometry/Icosphere.ts:88-100 | A round's triangle list is the children of every parent in order, all built from one final map. Parents that share an edge therefore share its midpoint vertex. |
| Icospheres.RoundIndices | src/geometry/Icosphere.ts:82-84 | After a round every triangle index is below the vertex count. |
| Icospheres.Subdivide | src/geometry/Icosphere.ts:66-101 | One round gives 4 triangles per parent and one new vertex per distinct unordered edge. Old vertices never move, and every index stays in range. |
| Icospheres.Generated | src/geometry/Icosphere.ts:58-101 | After k rounds there are 20·4^k triangles, at least 12 vertices, and every index is below the vertex count. IcosphereCounts.GeneratedCounts gives the exact vertex and edge counts. |
| Icospheres.FirstRoundVertexCount | src/geometry/Icosphere.ts:66-101 | After one round there are 42 vertices and 80 triangles. |
| Icospheres.RoundLayout | src/geometry/Icosphere.ts:89-97 | Parent [v1,v2,v3] has its children at 4i to 4i+3. Their new corners a, b and c are the normalised midpoints of (v1,v2), (v2,v3) and (v3,v1). |
| Icospheres.SubdivideOnce | src/geometry/Icosphere.ts:66-101 | The loop over the parents, with a fresh map each round, produces exactly the round that Subdivide describes. |
| IcosphereCounts.ChildrenOfSimple | src/geometry/Icosphere.ts:88-98 | If no parent repeats a corner and no two parents have the same corners, the same holds for the children. |
| IcosphereCounts.ChildEdges | src/geometry/Icosphere.ts:89-97 | The edges of one parent's four children are the two halves of each parent edge plus the three sides of the centre child. |
| IcosphereCounts.ChildrenOfEdges | src/geometry/Icosphere.ts:88-98 | The edges of a round's output are the halves of all parent edges plus the inner edges of all parents. |
| IcosphereCounts.HalvesCount | src/geometry/Icosphere.ts:70-86 | With one fresh midpoint per edge, E edges have exactly 2·|E| distinct halves. |
| IcosphereCounts.InnersCount | src/geometry/Icosphere.ts:88-98 | With parents that are pairwise distinct faces, the inner edges number exactly 3 per parent. |
| IcosphereCounts.ChildEdgeCount | src/geometry/Icosphere.ts:88-98 | A round turns E edges and F faces into 2E + 3F edges. |
| IcosphereCounts.RoundCounts | src/geometry/Icosphere.ts:66-101 | One round of the loop keeps the faces distinct and takes E edges and F faces to 2E + 3F edges. |
| IcosphereCounts.GeneratedStep | src/geometry/Icosphere.ts:66-101 | A round takes 30·4^(k-1) edges and 10·4^(k-1) + 2 vertices to 30·4^k edges and 10·4^k + 2 vertices, keeping the faces distinct. |
| IcosphereCounts.GeneratedZero | src/geometry/Icosphere.ts:40-63 | Before any round the mesh has 12 vertices, 30 edges and 20 distinct faces. |
| IcosphereCounts.GeneratedPositive | src/geometry/Icosphere.ts:66-101 | After k > 0 rounds the faces are distinct, with 30·4^k edges and 10·4^k + 2 vertices. |
| IcosphereCounts.GeneratedCounts | src/geometry/Icosphere.ts:36-101 | After k rounds there are exactly 10·4^k + 2 vertices, 30·4^k distinct edges and 20·4^k faces, and no two faces have the same corners. |
| Icospheres.PackedLayout | src/geometry/Icosphere.ts:104-124 | For a mesh with in-range indices, positions and normals have 4·|vertices| entries and indices 3·|triangles|, and the arrays are well formed. Every index is below the vertex count, slot 3 is 1 for positions and 0 for normals, and each normal's xyz is its position's xyz minus the center. |
| Icospheres.GenerateMesh | src/geometry/Icosphere.ts:36-101 | Normalising the 12 base vertices in place and running the subdivision loop gives the mesh Generated(subdivisions). |
| Icospheres.PackVertices | src/geometry/Icosphere.ts:104-117 | The packing loop fills the position array with vertex + center and w = 1, and the normal array with the vertex and w = 0. |
| Icospheres.PackIndices | src/geometry/Icosphere.ts:119-124 | The index loop pushes each triangle's three corners in order: the index list of the triangles. |
| Icospheres.Icosphere.constructor | src/geometry/Icosphere.ts:11-15 | The center is (x, y, z, 1). The packed arrays are those of the mesh after `subdivisions` rounds, so PackedLayout applies to them. |
| Icospheres.Icosphere.Create | src/geometry/Icosphere.ts:22 | After create the draw count equals the length of the index array, and the arrays are unchanged. |
| Quad.QuadCorner | src/geometry/FullscreenQuad.ts:13-18 | Every corner has z = 0, w = 1 and x, y in {-1, 1}. |
| Quad.QuadWellFormed | src/geometry/FullscreenQuad.ts:13-32 | Positions and normals are 4 vertices of 4 floats. There are 6 indices, all below 4, and the arrays meet the icosphere's well-formedness predicate. |
| Quad.QuadIndicesAreTriangles | src/geometry/FullscreenQuad.ts:29-32 | The indices are the two triangles [0,1,2] and [2,3,0], flattened. |
| Quad.QuadSharedEdge | src/geometry/FullscreenQuad.ts:29-32 | The two triangles share exactly the edge {0, 2}. |
| Quad.QuadCoversClipSpace | src/geometry/FullscreenQuad.ts:13-18 | The corners' (x, y) are exactly (±1, ±1), one per quadrant, with no two corners alike. |
| Quad.QuadNormalsConstant | src/geometry/FullscreenQuad.ts:21-26 | Every normal is (0, 0, 1, 0). |
| Quad.QuadCount | src/geometry/FullscreenQuad.ts:40 | After create the draw count is the index array's length, 6. |
| Gl.BindTextureOtherUnits | src/rendering/gl/FramebufferManager.ts:71-77 | bindTexture sets the binding of the active unit and leaves every other unit's binding alone. |
| Gl.SetUniformScoped | src/rendering/gl/BloomRenderer.ts:76-87 | A uniform call writes the named uniform of the current program only. With no current program it writes nothing. |
| Framebuffers.CreateStepsNet | src/rendering/gl/FramebufferManager.ts:16-49 | The createFramebuffer call sequence has exactly the net effect Created. |
| Framebuffers.CreatedEffect | src/rendering/gl/FramebufferManager.ts:16-49 | Creation gives three fresh handles and a valid target: two distinct textures of the given size, both attached. Afterwards the bound framebuffer and the bound texture are null. Other units, earlier textures and earlier attachments are untouched. |
| Framebuffers.CreatedKeepsOthers | src/rendering/gl/FramebufferManager.ts:16-49 | Creating a target keeps every earlier target valid and gives it no shared texture. |
| Framebuffers.ResizeStepsNet | src/rendering/gl/FramebufferManager.ts:64-78 | The resize call sequence, including its early return, has exactly the net effect ResizeTarget. |
| Framebuffers.ResizeEffect | src/rendering/gl/FramebufferManager.ts:64-78 | Resize keeps all three handles and records the new size. It reallocates both textures at that size and keeps the target valid. The active unit's binding ends null after a real resize. Every other texture, unit, binding, flag, uniform, attachment and log entry is untouched. |
| Framebuffers.ResizeIdempotent | src/rendering/gl/FramebufferManager.ts:65 | Resize to the current size changes nothing, so a second equal resize changes nothing either. |
| Framebuffers.BindUnbind | src/rendering/gl/FramebufferManager.ts:51-58 | bind makes the target's framebuffer current with viewport (0, 0, width, height). unbind makes the default framebuffer current and leaves the viewport alone. |
| Framebuffers.ResizeKeepsOthers | src/rendering/gl/FramebufferManager.ts:64-78 | Resizing one target keeps valid every other target that shares no texture with it. |
| Framebuffers.FramebufferManager.constructor | src/rendering/gl/FramebufferManager.ts:10-14 | The constructor records width and height, then creates the target with net effect Created. |
| Framebuffers.FramebufferManager.CreateFramebuffer | src/rendering/gl/FramebufferManager.ts:16-49 | The calls in order produce Created on the context, and the size is unchanged. |
| Framebuffers.FramebufferManager.Bind | src/rendering/gl/FramebufferManager.ts:51-54 | The context becomes BindTarget of the old context. |
| Framebuffers.FramebufferManager.Unbind | src/rendering/gl/FramebufferManager.ts:56-58 | The context becomes UnbindTarget of the old context. |
| Framebuffers.FramebufferManager.GetColorTexture | src/rendering/gl/FramebufferManager.ts:60-62 | Returns the color handle, which ResizeEffect shows no resize changes. |
| Framebuffers.FramebufferManager.Resize | src/rendering/gl/FramebufferManager.ts:64-78 | The manager and context become ResizeTarget of the old ones. |
| Bloom.SetUniformIfIsGuardedCall | src/rendering/gl/BloomRenderer.ts:76-87 | With the program current, a guarded uniform write is the GL call when the program declares the uniform, and no call otherwise. |
| Bloom.BeginSceneEffect | src/rendering/gl/BloomRenderer.ts:53-61 | beginScenePass binds the scene framebuffer with a viewport of the scene size and appends a color+depth clear. A following endScenePass binds the default framebuffer. |
| Bloom.HorizontalLog | src/rendering/gl/BloomRenderer.ts:69-89 | The horizontal pass appends a color clear of the horizontal target. It then appends one draw into that target, through a viewport covering it, by the blur program, with the scene texture on unit 0 and both flags off. |
| Bloom.HorizontalUniforms | src/rendering/gl/BloomRenderer.ts:76-87 | The blur program then holds sampler 0, resolution (w/2, h/2), direction (1, 0) and the blur size, whichever of them it declares. |
| Bloom.VerticalLog | src/rendering/gl/BloomRenderer.ts:92-101 | The vertical pass appends a color clear of the vertical target. It then appends one draw into it by the blur program, with the horizontal texture on unit 0 and both flags off. |
| Bloom.VerticalUniforms | src/rendering/gl/BloomRenderer.ts:97-99 | The vertical pass changes only the direction, to (0, 1). The other blur uniforms stay as the horizontal pass set them. |
| Bloom.CompositeLog | src/rendering/gl/BloomRenderer.ts:104-132 | The composite pass appends a color clear of the default framebuffer. It then appends one full-size draw by the composite program, with the scene texture on unit 0, the vertical texture on unit 1 and both flags off. Afterwards the composite program is current, unit 1 is active, and units 0 and 1 still hold the scene and vertical textures. |
| Bloom.CompositeUniformsSet | src/rendering/gl/BloomRenderer.ts:113-130 | The composite program then holds samplers 0 and 1, the bloom strength and the threshold, whichever of them it declares. |
| Bloom.RenderBloomOrder | src/rendering/gl/BloomRenderer.ts:63-136 | renderBloom appends exactly six events, in order: clear and draw into the horizontal target, then into the vertical target, then into the default framebuffer. Each draw reads the texture named above. |
| Bloom.RenderBloomUniforms | src/rendering/gl/BloomRenderer.ts:76-130 | The three draws saw direction (1, 0), then (0, 1), each with resolution (w/2, h/2) and the blur size, then strength and threshold passed through unchanged. |
| Bloom.RenderBloomFinal | src/rendering/gl/BloomRenderer.ts:63-136 | After renderBloom depth testing is on and blending is off. The default framebuffer is bound and the viewport is (0, 0, width, height). The composite program is current, unit 1 is active and holds the vertical texture, and unit 0 holds the scene texture. |
| Bloom.FrameKeepsValid | src/rendering/gl/BloomRenderer.ts:53-136 | beginScenePass, endScenePass and renderBloom allocate and attach nothing, so each keeps a valid renderer valid. |
| Bloom.BlurResolutionIsTargetSize | src/rendering/gl/BloomRenderer.ts:80 | In a valid renderer the blur resolution (w/2, h/2) is the size of both blur targets. |
| Bloom.ResizeBloomShape | src/rendering/gl/BloomRenderer.ts:138-145 | resize records (w, h), resizes the scene target to (w, h) and both blur targets to (w/2, h/2). It keeps every handle and every other field. |
| Bloom.ResizeBloomNet | src/rendering/gl/BloomRenderer.ts:138-145 | On a valid renderer the three target resizes act together. Nothing changes when the size is the current one; otherwise all six textures are reallocated. |
| Bloom.ResizedBloomValid | src/rendering/gl/BloomRenderer.ts:138-145 | That net effect keeps the renderer valid and touches only texture bindings and sizes. |
| Bloom.ResizeBloomEffect | src/rendering/gl/BloomRenderer.ts:138-145 | resize keeps the renderer valid and touches only texture bindings and sizes: the framebuffer binding, viewport, flags, program, uniforms, attachments and log are untouched. |
| Bloom.ResizeBloomIdempotent | src/rendering/gl/BloomRenderer.ts:138-145 | Repeating a resize with the same arguments changes nothing. |
| Bloom.ConstructTargets | src/rendering/gl/BloomRenderer.ts:23-37 | The constructor creates the scene target at (w, h) and both blur targets at (w/2, h/2) on consecutive fresh handles, then the two programs. |
| Bloom.ConstructValid | src/rendering/gl/BloomRenderer.ts:23-37 | A constructed renderer is valid: its sizes are consistent, its six textures distinct, and its programs distinct. |
| Bloom.ConstructEffect | src/rendering/gl/BloomRenderer.ts:19-30 | The constructor records (w, h) and the defaults strength 0.8, threshold 1.0 and blur size 2.0. It leaves the default framebuffer bound and the viewport, flags, program, uniforms and log untouched. |
| Bloom.BloomRenderer.constructor | src/rendering/gl/BloomRenderer.ts:23-37 | The renderer's value and the context are Construct of the old context, and the renderer is valid. |
| Bloom.BloomRenderer.BeginScenePass | src/rendering/gl/BloomRenderer.ts:53-57 | The context becomes BeginScene of the old one, and a valid renderer stays valid. |
| Bloom.BloomRenderer.EndScenePass | src/rendering/gl/BloomRenderer.ts:59-61 | The context becomes UnbindTarget of the old one, and a valid renderer stays valid. |
| Bloom.BloomRenderer.UniformIf | src/rendering/gl/BloomRenderer.ts:76-78 | A uniform is set only when the current program declares it. |
| Bloom.BloomRenderer.DrawQuadCall | src/rendering/gl/BloomRenderer.ts:89 | Drawing the quad makes the program current and draws 6 indices. |
| Bloom.BloomRenderer.RenderBloom | src/rendering/gl/BloomRenderer.ts:63-136 | The context becomes RenderBloomSpec of the old one, so RenderBloomOrder, RenderBloomUniforms and RenderBloomFinal apply to it, and a valid renderer stays valid. |
| Bloom.BloomRenderer.HorizontalBlur | src/rendering/gl/BloomRenderer.ts:69-89 | The context becomes HorizontalPass of the old one, and the blur program is current. |
| Bloom.BloomRenderer.VerticalBlur | src/rendering/gl/BloomRenderer.ts:92-101 | The context becomes VerticalPass of the old one. |
| Bloom.BloomRenderer.CompositeToScreen | src/rendering/gl/BloomRenderer.ts:104-132 | The context becomes CompositePass of the old one. |
| Bloom.BloomRenderer.Resize | src/rendering/gl/BloomRenderer.ts:138-145 | The renderer and context become ResizeBloom of the old ones, and the renderer stays valid. |
| Meteors.Random.Next | src/geometry/MeteorBackground.ts:45-56 | Each Math.random call returns the source's next value and advances the call count by one. |
| Meteors.FreshDrawsInUnit | src/geometry/MeteorBackground.ts:45-56 | A reset's six draws lie in [0, 1). |
| Meteors.MergeFields | src/geometry/MeteorBackground.ts:24 | Object.assign takes every given field and keeps the others. Merging the same update twice is merging it once, and an empty update changes nothing. |
| Meteors.RecordsInjective | src/geometry/MeteorBackground.ts:58-65 | Two buffers holding the same meteors are the same buffer, so stating the buffer as meteors loses nothing. |
| Meteors.ReplaceFrame | src/geometry/MeteorBackground.ts:58-65 | Replacing meteor i changes only entries 8i to 8i+7 and writes the meteor's eight values there, including its age at entry 8i+5. |
| Meteors.FreshBounds | src/geometry/MeteorBackground.ts:45-56 | With draws in [0, 1): start x and y in [-1, 1), velocityY = -velocityX, velocityX = 0.707·speed with speed in [0.3, 0.5)·speed. It also gives lifetime in [0.8, 1.2)·lifetime, size in [0.7, 1.3)·size, brightness in [0.6, 1.0)·brightness, and age 0. |
| Meteors.Reset | src/geometry/MeteorBackground.ts:41-66 | A reset keeps the number of meteors. |
| Meteors.ResetEffect | src/geometry/MeteorBackground.ts:41-66 | A reset gives meteor i a fresh record with age 0 and leaves every other meteor as it was. It takes six values from the source. |
| Meteors.Step | src/geometry/MeteorBackground.ts:133-145 | One loop iteration keeps the number of meteors. |
| Meteors.StepEffect | src/geometry/MeteorBackground.ts:137-145 | Meteor i is reset when age + dt passes its lifetime; otherwise only its age changes, to age + dt. Every other meteor is unchanged. |
| Meteors.UpdatePrefix | src/geometry/MeteorBackground.ts:132-146 | The first k iterations keep the number of meteors. |
| Meteors.UpdateUntouched | src/geometry/MeteorBackground.ts:132-146 | Meteors from k on are untouched by the first k iterations. |
| Meteors.UpdateAged | src/geometry/MeteorBackground.ts:132-146 | Each meteor below k has met its fate after the first k iterations, and later iterations leave it alone. |
| Meteors.UpdatePrefixRecords | src/geometry/MeteorBackground.ts:132-146 | Each meteor is handled on its own: those below k are aged or reset, and the rest are untouched. |
| Meteors.UpdatePreservesAges | src/geometry/MeteorBackground.ts:137-144 | If every meteor has 0 ≤ age ≤ lifetime, dt ≥ 0 and the lifetime parameter is non-negative, updateTime keeps that invariant. |
| Meteors.GeneratePrefix | src/geometry/MeteorBackground.ts:32-39 | generateInstanceData after k resets holds n meteors. |
| Meteors.GenerateUntouched | src/geometry/MeteorBackground.ts:34-38 | Meteors from k on are still zero after the first k resets. |
| Meteors.GenerateReset | src/geometry/MeteorBackground.ts:36-38 | Each meteor below k holds a fresh record after the first k resets. |
| Meteors.GeneratePrefixRecords | src/geometry/MeteorBackground.ts:36-38 | After k resets the first k meteors hold fresh records and the rest are zero. |
| Meteors.GenerateResetsAll | src/geometry/MeteorBackground.ts:32-39 | generateInstanceData gives n meteors, every one reset, taking 6n values from the source. |
| Meteors.GenerateDraws | src/geometry/MeteorBackground.ts:36-38 | k resets take 6k values from the source. |
| Meteors.GenerateAgesValid | src/geometry/MeteorBackground.ts:32-39 | A freshly generated buffer has 0 ≤ age ≤ lifetime for every meteor, when the lifetime parameter is non-negative. |
| Meteors.ZeroRecords | src/geometry/MeteorBackground.ts:34 | A new zero-filled Float32Array reads as all-zero meteors. |
| Meteors.WriteMeteor | src/geometry/MeteorBackground.ts:58-65 | The eight writes at offset 8i replace meteor i and no other. |
| Meteors.WriteTime | src/geometry/MeteorBackground.ts:143 | Writing entry 8i+5 changes only meteor i's age. |
| Meteors.MeteorBackground.constructor | src/geometry/MeteorBackground.ts:7-21 | The instance count is 50 and the parameters are {50, 1.0, 0.15, 0.8, 4.0}. The buffer has 8·50 entries and holds the generated meteors. |
| Meteors.MeteorBackground.SetParams | src/geometry/MeteorBackground.ts:23-30 | The given fields are always merged. Only a given, non-zero count that differs from the instance count reallocates: then the count is set, the buffer is fresh with 8·count entries, and it holds meteors generated with the merged parameters. Otherwise the count, the buffer and every meteor are unchanged and no value is drawn. |
| Meteors.MeteorBackground.GenerateInstanceData | src/geometry/MeteorBackground.ts:32-39 | The method allocates exactly 8·instanceCount zeroed entries and resets every meteor in index order, giving Generate. |
| Meteors.MeteorBackground.ResetMeteor | src/geometry/MeteorBackground.ts:41-66 | The buffer's meteors and the source become Reset of the old ones, so ResetEffect, ReplaceFrame and FreshBounds apply. |
| Meteors.MeteorBackground.UpdateTime | src/geometry/MeteorBackground.ts:129-151 | The buffer's meteors and the source become the full update of the old ones. The upload flag is set exactly when there is at least one meteor. |
| Meteors.MeteorBackground.GetInstanceCount | src/geometry/MeteorBackground.ts:153-155 | Returns the instance count. |

## Left out

- GPU uploads and deletion are not modelled: `create`'s buffer uploads, `updateInstanceBuffer`, `bindInstanceData`, `cleanup`, `destroy`, `drawMode` and the vertex-attribute setup in `ShaderProgram.draw`. They are GL calls with no logic of their own. `MeteorBackground.updateTime` is modelled only as returning the flag that decides the upload.
- `MeteorBackground.setParams` calls `updateInstanceBuffer` after reallocating. The model leaves that call out for the same reason.
- Shader compilation and the GLSL shaders are not modelled. A program is given as a handle and the set of uniforms it declares, standing for the non-null `getUniformLocation` results, so pixel-level results are not stated.
- The `!== -1` checks in ShaderProgram are not modelled, and neither is its `activeProgram` cache. `use` is modelled as always making the program current, which has the same effect.
- `src/main.ts` and `src/rendering/gl/OpenGLRenderer.ts` (UI, frame timing, matrix math) are not part of this model.
- The framebuffer completeness check only logs to the console. It is left out, and there is no error path.
- Texture filtering and wrap parameters (`texParameteri`) are not part of the abstract context state.
- Floating point is not modelled: numbers are exact reals. The model leaves out `Float32Array` rounding, the truncation of non-integer viewport and texture sizes by GL, and the rounding of the golden ratio. The model's `Phi` is 1.618033988749895, the shortest decimal that rounds to the double the source computes. The exact value of that double is 1.6180339887498949025…, so the model's constant differs from it in the seventeenth digit.
- `vec3.normalize` and the midpoint arithmetic are not modelled as numbers. The midpoint is written out as (p + q)·0.5 on reals. Normalisation is a function parameter about which nothing is assumed, so the model states nothing about the vertices lying on the unit sphere.
- Meteors.Random.Next: Math.random is modelled as a given sequence of values, where call k returns values(k). The promise that every value lies in [0, 1) is a precondition (`UnitSource`) of the lemmas that need it, not part of the method's contract.
- Negative or fractional counts and subdivision numbers are not modelled: they are `nat`. In the source these would throw a RangeError from the typed-array constructor or act as a loop bound.
- Icospheres.Icosphere.constructor: the default argument of 2 subdivisions is not modelled; the count is always passed.
- Meteors.Reset, Meteors.Step, Meteors.UpdatePrefix and Meteors.GeneratePrefix: their own contracts give only the meteor count. Their meaning is proved in ResetEffect, StepEffect, UpdatePrefixRecords and GeneratePrefixRecords.
- The meteor buffer is specified through the meteors it holds (`Records`). `RecordsInjective` shows that this determines the buffer entry by entry, and `ReplaceFrame` restates a reset at entry level.
