/** The hero's background (`src/components/hero/HeroBackground.tsx`): a CSS gradient until the
    mount effect has run, then the selected layered shader when the device has WebGL and a
    viewport at least 768 pixels wide, and the gradient otherwise. The window, the canvas and
    its `getContext` calls are inputs. */
module HeroBackgroundCore {
  import opened Options
  import opened LayeredShaderConfigs

  const DefaultShaderType: string := "mesh-wireframe"

  /** Viewports narrower than this count as mobile and get the gradient. */
  const MobileWidth: int := 768

  /** The outcome of one `canvas.getContext(kind)` call. */
  datatype ContextProbe = Obtained | NullContext | Throws

  /** The WebGL probe: `!!(getContext('webgl') || getContext('experimental-webgl'))` inside a
      `try`. The second call is made only when the first returns null; an exception from either
      call makes the answer false. */
  function HasWebGL(webgl: ContextProbe, experimental: ContextProbe): (r: bool)
    ensures r <==> webgl.Obtained? || (webgl.NullContext? && experimental.Obtained?)
    ensures webgl.Throws? ==> !r
  {
    match webgl
    case Throws => false
    case Obtained => true
    case NullContext =>
      match experimental
      case Throws => false
      case Obtained => true
      case NullContext => false
  }

  /** What the component renders. */
  datatype Background = GradientFallback | Shader(component: ShaderComponent)

  class HeroBackground {
    const shaderType: string
    var isMounted: bool
    var useWebGL: bool

    /** First render: the `shaderType` prop or its default, not yet mounted, WebGL assumed. */
    constructor (shaderType: Option<string>)
      ensures this.shaderType == shaderType.GetOr(DefaultShaderType)
      ensures !isMounted && useWebGL
      ensures Render() == GradientFallback
    {
      this.shaderType := shaderType.GetOr(DefaultShaderType);
      isMounted, useWebGL := false, true;
    }

    /** The fallback until mounted or without WebGL; the layered shader otherwise. */
    function Render(): (r: Background)
      reads this
      ensures r.Shader? <==> isMounted && useWebGL
      ensures r.Shader? ==> r.component == GetLayeredShader(shaderType)
    {
      if !isMounted || !useWebGL then GradientFallback else Shader(GetLayeredShader(shaderType))
    }

    /** The mount effect. With a window present it decides WebGL use from the viewport width
        and the context probe. */
    method MountEffect(windowDefined: bool, innerWidth: int, webgl: ContextProbe, experimental: ContextProbe)
      modifies this
      ensures isMounted
      ensures windowDefined ==> useWebGL == (HasWebGL(webgl, experimental) && innerWidth >= MobileWidth)
      ensures !windowDefined ==> useWebGL == old(useWebGL)
      ensures windowDefined ==>
                (Render().Shader? <==> HasWebGL(webgl, experimental) && innerWidth >= MobileWidth)
    {
      isMounted := true;
      if windowDefined {
        var isMobile := innerWidth < MobileWidth;
        var hasWebGL := HasWebGL(webgl, experimental);
        useWebGL := hasWebGL && !isMobile;
      }
    }
  }

  /** With the default shader type, a mounted WebGL desktop renders the mesh wireframe. */
  lemma DefaultRendersMeshWireframe()
    ensures GetLayeredShader(DefaultShaderType) == MeshWireframe
  {
    FallbackUnreachable(DefaultShaderType);
  }
}
