/** The parts of the host engine's native plugin interface that the plugin touches. */
module Unity {

  /** Opaque handle to the host's interface registry (`IUnityInterfaces*`). */
  datatype Interfaces = Interfaces(id: nat)

  /** Opaque handle to the host's graphics interface (`IUnityGraphics*`). */
  datatype Graphics = Graphics(id: nat)

  /** The renderer the host runs on, as `IUnityGraphics::GetRenderer` reports it; only the
      distinction between Direct3D 11 and everything else matters to the plugin. */
  datatype Renderer = Direct3D11 | Direct3D12 | OpenGLCore | Vulkan | Metal | OtherRenderer

  /** The device lifecycle events the host delivers to a registered callback. */
  datatype DeviceEventType = Initialize | Shutdown | BeforeReset | AfterReset
}
