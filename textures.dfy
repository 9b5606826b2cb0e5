/** GPU textures as abstract handles. The registry records which textures were
    created and which disposed, and the order of create, dispose and refresh
    (`needsUpdate = true`) calls. */
module Textures {

  type TextureId = nat

  datatype GpuEvent = Created(t: TextureId) | Disposed(t: TextureId) | Refreshed(t: TextureId)

  class TextureRegistry {
    var next: nat
    ghost var created: set<TextureId>
    ghost var disposed: set<TextureId>
    ghost var log: seq<GpuEvent>

    ghost predicate Valid()
      reads this
    {
      (forall t :: t in created ==> t < next) && disposed <= created
    }

    /** Textures created and not yet disposed. */
    ghost function Live(): set<TextureId>
      reads this
    {
      created - disposed
    }

    constructor ()
      ensures Valid()
      ensures created == {} && disposed == {} && log == []
    {
      next := 0;
      created, disposed, log := {}, {}, [];
    }

    /** `new THREE.VideoTexture(...)` / `new THREE.DataTexture(...)` */
    method Create() returns (t: TextureId)
      requires Valid()
      modifies this
      ensures Valid()
      ensures t !in old(created)
      ensures created == old(created) + {t} && disposed == old(disposed)
      ensures log == old(log) + [Created(t)]
      ensures Live() == old(Live()) + {t}
    {
      t := next;
      next := next + 1;
      created := created + {t};
      log := log + [Created(t)];
    }

    /** `texture.dispose()` */
    method Dispose(t: TextureId)
      requires Valid() && t in created
      modifies this
      ensures Valid()
      ensures next == old(next) && created == old(created)
      ensures disposed == old(disposed) + {t}
      ensures log == old(log) + [Disposed(t)]
      ensures Live() == old(Live()) - {t}
    {
      disposed := disposed + {t};
      log := log + [Disposed(t)];
    }

    /** `texture.needsUpdate = true` */
    method Refresh(t: TextureId)
      requires Valid()
      modifies this
      ensures Valid()
      ensures next == old(next) && created == old(created) && disposed == old(disposed)
      ensures log == old(log) + [Refreshed(t)]
    {
      log := log + [Refreshed(t)];
    }
  }
}
