/** The three draw scenes a particle registers its meshes with: the
    stencil-write, solid-colour and image-reveal scenes. A scene is a plain
    container, so it is modelled by the set of particles (named by their
    z-order, which is never reused) whose mesh it holds. */
module Scene {

  /** What the three scenes hold. */
  datatype Layers = Layers(stencil: set<nat>, solid: set<nat>, image: set<nat>)
  {
    /** Each scene also holds particle `id`'s mesh. */
    function With(id: nat): (r: Layers)
      ensures id in r.stencil && id in r.solid && id in r.image
      ensures forall k :: k != id ==> (k in r.stencil <==> k in stencil)
      ensures forall k :: k != id ==> (k in r.solid <==> k in solid)
      ensures forall k :: k != id ==> (k in r.image <==> k in image)
    {
      Layers(stencil + {id}, solid + {id}, image + {id})
    }

    /** No scene holds particle `id`'s mesh any more. */
    function Without(id: nat): (r: Layers)
      ensures id !in r.stencil && id !in r.solid && id !in r.image
      ensures forall k :: k != id ==> (k in r.stencil <==> k in stencil)
      ensures forall k :: k != id ==> (k in r.solid <==> k in solid)
      ensures forall k :: k != id ==> (k in r.image <==> k in image)
    {
      Layers(stencil - {id}, solid - {id}, image - {id})
    }
  }

  class Scenes {
    var stencil: set<nat>
    var solid: set<nat>
    var image: set<nat>

    function Contents(): Layers
      reads this
    {
      Layers(stencil, solid, image)
    }

    constructor ()
      ensures Contents() == Layers({}, {}, {})
    {
      stencil, solid, image := {}, {}, {};
    }

    /** Scene.getStencilScene().add(...), and likewise for the other two. */
    method AddMeshes(id: nat)
      modifies this
      ensures Contents() == old(Contents()).With(id)
    {
      stencil := stencil + {id};
      solid := solid + {id};
      image := image + {id};
    }

    /** Scene.getStencilScene().remove(...), and likewise for the other two;
        removing a mesh that is not there leaves the scene as it is. */
    method RemoveMeshes(id: nat)
      modifies this
      ensures Contents() == old(Contents()).Without(id)
    {
      stencil := stencil - {id};
      solid := solid - {id};
      image := image - {id};
    }
  }
}
