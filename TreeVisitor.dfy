/**
 * The collaborators a scanning recipe only passes around: trees, source
 * files, the execution context, and visitors. Their internals (tree walking,
 * visitor dispatch) are not part of this model; a visitor is the record of
 * its three entry points.
 */
module TreeVisitors {
  import opened Wrappers

  /** A node of a syntax tree; `None` in an `Option<Tree>` is Java's null. */
  type Tree(==, !new)

  /** The root of a parsed (or generated) file. */
  type SourceFile(==, !new)

  /** The run-scoped context handed through every call, never inspected here. */
  type ExecutionContext(!new)

  /**
   * A visitor as seen by a caller: whether it accepts a source file, and what
   * it returns when asked to visit a (possibly null) tree, with or without a
   * parent cursor. A `None` result asks for the tree to be deleted. The parent
   * cursor is passed through as an opaque reference.
   */
  datatype Visitor = Visitor(
    isAcceptable: (SourceFile, ExecutionContext) -> bool,
    visit: (Option<Tree>, ExecutionContext) -> Option<Tree>,
    visitWithParent: (Option<Tree>, ExecutionContext, object) -> Option<Tree>)

  /** The no-op visitor. */
  const Noop: Visitor := Visitor((f, ctx) => true, (t, ctx) => t, (t, ctx, parent) => t)

  /** The no-op visitor accepts every file and returns every tree it is given, null included. */
  lemma NoopChangesNothing(f: SourceFile, t: Option<Tree>, ctx: ExecutionContext, parent: object)
    ensures Noop.isAcceptable(f, ctx)
    ensures Noop.visit(t, ctx) == t && Noop.visitWithParent(t, ctx, parent) == t
  {
  }
}
