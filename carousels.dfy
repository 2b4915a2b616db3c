/** The three slide shows (images, reviews, videos). Each keeps a selected
    index into its list and moves it one step forward or back, wrapping around
    at either end. */
module Carousels {
  import opened Common

  /** `irSiguiente()` on an index into a list of `n` items. */
  function Next(i: int, n: int): (r: int)
    ensures 0 <= i < n ==> 0 <= r < n && r == (i + 1) % n
  {
    if i == n - 1 then 0 else i + 1
  }

  /** `irAnterior()` on an index into a list of `n` items. */
  function Prev(i: int, n: int): (r: int)
    ensures 0 <= i < n ==> 0 <= r < n && r == (i + n - 1) % n
  {
    if i == 0 then n - 1 else i - 1
  }

  /** One step forward then one back, or back then forward, gives the index
      back. */
  lemma PrevNextInverse(i: int, n: int)
    requires 0 <= i < n
    ensures Prev(Next(i, n), n) == i
    ensures Next(Prev(i, n), n) == i
  {
  }

  /** `k` steps forward. */
  function Advance(i: int, n: int, k: nat): int
    decreases k
  {
    if k == 0 then i else Next(Advance(i, n, k - 1), n)
  }

  /** Up to `n` steps forward from `i` land on `i + k`, less `n` once the
      end has been passed. */
  lemma {:induction false} AdvanceWrap(i: int, n: int, k: nat)
    requires 0 <= i < n && k <= n
    ensures Advance(i, n, k) == if i + k < n then i + k else i + k - n
  {
    if k > 0 {
      AdvanceWrap(i, n, k - 1);
    }
  }

  /** As many steps forward as there are items come back to the start. */
  lemma FullTurn(i: int, n: int)
    requires 0 <= i < n
    ensures Advance(i, n, n) == i
  {
    AdvanceWrap(i, n, n);
  }

  /** With an empty list, a step back from the first index leaves the list:
      the index becomes -1. */
  lemma EmptyListPrev()
    ensures Prev(0, 0) == -1
  {
  }

  datatype Imagen = Imagen(imgSrc: string, imgAlt: string)

  datatype Review = Review(imgSrc: string, imgAlt: string, text: string, nombre: string)

  datatype Video = Video(srcVideo: string, descripcion: string, imgSrc: string, imgAlt: string)

  /** The image slide show. */
  class Carousel {
    const imagenes: seq<Imagen>
    var selectedIndex: int

    constructor (imagenes: seq<Imagen>)
      ensures this.imagenes == imagenes && selectedIndex == 0
    {
      this.imagenes := imagenes;
      selectedIndex := 0;
    }

    /** `selectImagen(index)`: the dialog opens on that image. Outside the
        list the index is still taken, then reading the missing entry throws
        and no dialog opens. */
    method SelectImagen(index: int) returns (dialog: Option<Imagen>)
      modifies this
      ensures selectedIndex == index
      ensures 0 <= index < |imagenes| ==> dialog == Some(imagenes[index])
      ensures !(0 <= index < |imagenes|) ==> dialog.None?
    {
      selectedIndex := index;
      if 0 <= selectedIndex < |imagenes| {
        dialog := Some(imagenes[selectedIndex]);
      } else {
        dialog := None;
      }
    }

    method IrAnterior()
      modifies this
      ensures selectedIndex == Prev(old(selectedIndex), |imagenes|)
    {
      if selectedIndex == 0 {
        selectedIndex := |imagenes| - 1;
      } else {
        selectedIndex := selectedIndex - 1;
      }
    }

    method IrSiguiente()
      modifies this
      ensures selectedIndex == Next(old(selectedIndex), |imagenes|)
    {
      if selectedIndex == |imagenes| - 1 {
        selectedIndex := 0;
      } else {
        selectedIndex := selectedIndex + 1;
      }
    }
  }

  /** The review slide show. */
  class Reviews {
    const reviews: seq<Review>
    var selectedIndex: int

    constructor (reviews: seq<Review>)
      ensures this.reviews == reviews && selectedIndex == 0
    {
      this.reviews := reviews;
      selectedIndex := 0;
    }

    /** `selectImagen(index)`: only the index changes. */
    method SelectImagen(index: int)
      modifies this
      ensures selectedIndex == index
    {
      selectedIndex := index;
    }

    method IrAnterior()
      modifies this
      ensures selectedIndex == Prev(old(selectedIndex), |reviews|)
    {
      if selectedIndex == 0 {
        selectedIndex := |reviews| - 1;
      } else {
        selectedIndex := selectedIndex - 1;
      }
    }

    method IrSiguiente()
      modifies this
      ensures selectedIndex == Next(old(selectedIndex), |reviews|)
    {
      if selectedIndex == |reviews| - 1 {
        selectedIndex := 0;
      } else {
        selectedIndex := selectedIndex + 1;
      }
    }
  }

  /** The video slide show. */
  class VideoCarrusel {
    const videos: seq<Video>
    var selectedIndex: int

    constructor (videos: seq<Video>)
      ensures this.videos == videos && selectedIndex == 0
    {
      this.videos := videos;
      selectedIndex := 0;
    }

    /** `selectImagen(index)`: the dialog opens with that video's source and
        description. Outside the list the index is still taken, then reading
        the missing entry throws and no dialog opens. */
    method SelectImagen(index: int) returns (dialog: Option<(string, string)>)
      modifies this
      ensures selectedIndex == index
      ensures 0 <= index < |videos| ==> dialog == Some((videos[index].srcVideo, videos[index].descripcion))
      ensures !(0 <= index < |videos|) ==> dialog.None?
    {
      selectedIndex := index;
      if 0 <= selectedIndex < |videos| {
        var v := videos[selectedIndex];
        dialog := Some((v.srcVideo, v.descripcion));
      } else {
        dialog := None;
      }
    }

    method IrSiguiente()
      modifies this
      ensures selectedIndex == Next(old(selectedIndex), |videos|)
    {
      if selectedIndex == |videos| - 1 {
        selectedIndex := 0;
      } else {
        selectedIndex := selectedIndex + 1;
      }
    }

    method IrAnterior()
      modifies this
      ensures selectedIndex == Prev(old(selectedIndex), |videos|)
    {
      if selectedIndex == 0 {
        selectedIndex := |videos| - 1;
      } else {
        selectedIndex := selectedIndex - 1;
      }
    }
  }
}
