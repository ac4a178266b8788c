/**
 * The saga error stack: the one piece of state shared by every task. A task
 * that ends with an error pushes a frame naming itself and the tasks its
 * failure cancelled; a root task reports the frames and clears them, and a
 * generator that catches the error clears them too. The effect that crashed
 * is recorded beside the frames.
 *
 * Rendering the stack as text is not modelled: reports carry the frame list.
 */
module SagaErrors {
  import opened JsValues

  /** `{ meta, cancelledTasks }`, with the task's meta reduced to its name. */
  datatype Frame = Frame(name: string, cancelledTasks: seq<string>)

  class SagaStack {
    var frames: seq<Frame>
    var crashedEffect: Option<Value>

    constructor ()
      ensures frames == [] && crashedEffect == None
    {
      frames, crashedEffect := [], None;
    }

    /** `addSagaFrame(frame)`: push a frame on top of the others. */
    method AddFrame(name: string, cancelledTasks: seq<string>)
      modifies this`frames
      ensures frames == old(frames) + [Frame(name, cancelledTasks)]
    {
      frames := frames + [Frame(name, cancelledTasks)];
    }

    /** `clear()`: forget every frame and the crashed effect. */
    method Clear()
      modifies this
      ensures frames == [] && crashedEffect == None
    {
      frames, crashedEffect := [], None;
    }

    /** `setCrashedEffect(effect)`. */
    method SetCrashedEffect(effect: Value)
      modifies this`crashedEffect
      ensures crashedEffect == Some(effect)
    {
      crashedEffect := Some(effect);
    }
  }
}
