/**
 * The container adapters: the five view classes that conform to `Container`
 * by routing `insets` to one of their own inset fields. UIKit's layout passes
 * are not modelled; `layoutMargins`, `contentInset` and `scrollIndicatorInsets`
 * are plain fields.
 */
module Containers {
  import opened Geometry

  /** Which of the five adapter classes a container is. */
  datatype ContainerKind =
    | KeyboardAvoidingView
    | KeyboardAvoidingScrollView
    | KeyboardAvoidingTableView
    | KeyboardAvoidingCollectionView
    | KeyboardAvoidingTextView
  {
    /** `KeyboardAvoidingView` keeps its insets in `layoutMargins`; the scrolling views in `contentInset`. */
    predicate UsesLayoutMargins() {
      this == KeyboardAvoidingView
    }
  }

  /** A view conforming to `Container`: bounds, coordinate conversion and a mutable `insets`. */
  class Container {
    const kind: ContainerKind
    /** `convertRect(_:fromView: nil)`: from window coordinates into the view's own. */
    const convert: Rect -> Rect
    var bounds: Rect
    var layoutMargins: EdgeInsets
    var contentInset: EdgeInsets
    var scrollIndicatorInsets: EdgeInsets

    constructor (kind: ContainerKind, convert: Rect -> Rect, bounds: Rect,
                 layoutMargins: EdgeInsets, contentInset: EdgeInsets, scrollIndicatorInsets: EdgeInsets)
      ensures this.kind == kind && this.convert == convert && this.bounds == bounds
      ensures this.layoutMargins == layoutMargins && this.contentInset == contentInset
      ensures this.scrollIndicatorInsets == scrollIndicatorInsets
    {
      this.kind := kind;
      this.convert := convert;
      this.bounds := bounds;
      this.layoutMargins := layoutMargins;
      this.contentInset := contentInset;
      this.scrollIndicatorInsets := scrollIndicatorInsets;
    }

    /**
     * The `insets` getter: the layout margins of the plain view, the content
     * inset of the scrolling views.
     */
    function Insets(): (r: EdgeInsets)
      reads this
      ensures kind.UsesLayoutMargins() ==> r == layoutMargins
      ensures !kind.UsesLayoutMargins() ==> r == contentInset
    {
      if kind.UsesLayoutMargins() then layoutMargins else contentInset
    }

    /**
     * The `insets` setter: `layoutMargins` for the plain view; `contentInset`
     * and `scrollIndicatorInsets` together for the scrolling views. Reading
     * `insets` afterwards gives back the value set.
     */
    method SetInsets(newValue: EdgeInsets)
      modifies this
      ensures Insets() == newValue
      ensures bounds == old(bounds)
      ensures kind.UsesLayoutMargins() ==>
                layoutMargins == newValue &&
                contentInset == old(contentInset) && scrollIndicatorInsets == old(scrollIndicatorInsets)
      ensures !kind.UsesLayoutMargins() ==>
                contentInset == newValue && scrollIndicatorInsets == newValue &&
                layoutMargins == old(layoutMargins)
    {
      if kind.UsesLayoutMargins() {
        layoutMargins := newValue;
      } else {
        contentInset := newValue;
        scrollIndicatorInsets := newValue;
      }
    }

    /**
     * Since the previous state, only the fields behind `insets` were written,
     * through its setter: the bounds and the fields this view's `insets` does
     * not use are as they were, and a scrolling view's indicator insets
     * match its content inset.
     */
    twostate predicate OnlyInsetsWritten()
      reads this
    {
      bounds == old(bounds) &&
      (kind.UsesLayoutMargins() ==>
         contentInset == old(contentInset) && scrollIndicatorInsets == old(scrollIndicatorInsets)) &&
      (!kind.UsesLayoutMargins() ==>
         layoutMargins == old(layoutMargins) && scrollIndicatorInsets == contentInset)
    }

    /** `convertRect(_:fromView: nil)` */
    function ConvertRect(rect: Rect): Rect {
      convert(rect)
    }
  }
}
